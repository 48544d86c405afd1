/** Runs of two connected peers that reach the exceptional cases: a first frame that
    opens nothing, and a new stream that finds the table full. */
module TwoPeersWitnesses {
  import opened Frames
  import opened Basics
  import opened StreamModel
  import opened PeerModel
  import opened PeerInvariants
  import opened PeerRuns
  import L = LaneModel
  import opened LaneView
  import opened TwoPeers
  import opened TwoPeersSafety
  import T = TwoPeersTheorems

  // ----- one side running alone -----

  lemma OneMore(states: seq<Sys>, m: Move, t: Sys)
    requires T.Run(states) && StepA(T.Last(states), m, t) && !t.a.drv.terminating
    ensures T.Run(states + [t]) && T.Last(states + [t]) == t
  {
    hide StepA;
    var more := states + [t];
    assert Calm(t) by { BStays(T.Last(states), m, t); }
    forall i | 0 <= i < |more| - 1 ensures Next(more[i], more[i + 1]) {
      if i < |states| - 1 { assert Next(states[i], states[i + 1]); }
    }
  }

  lemma BStays(s: Sys, m: Move, t: Sys)
    requires StepA(s, m, t)
    ensures t.b == s.b
  {
  }

  /** Steps that a peer can take without the other. */
  predicate Alone(step: Step) { !step.Receiving? && (step.Opening? ==> step.h.k == 0) }

  /** The frames that a run of one peer puts on its link. */
  ghost function SentBy(p: Peer, steps: seq<Step>): seq<Frame>
    decreases |steps|
  {
    if steps == [] || !Enabled(p, steps[0]) then []
    else OptFrame(Apply(p, steps[0]).frame) + SentBy(Apply(p, steps[0]).peer, steps[1..])
  }

  /** Whatever a peer can do alone it can do in the system, and what it sends meanwhile
      is on its link. */
  lemma {:induction false} RunAlone(states: seq<Sys>, steps: seq<Step>, p: Peer) returns (more: seq<Sys>)
    requires T.Run(states) && PeerRuns.Run(T.Last(states).a, steps, p) && forall i :: 0 <= i < |steps| ==> Alone(steps[i])
    ensures var s := T.Last(states); T.Run(more) && T.Last(more) == s.(a := p, ab := s.ab + SentBy(s.a, steps))
    decreases |steps|
  {
    hide Enabled, Apply, T.Run, T.Last;
    RunIsCalm(states);
    var s := T.Last(states);
    if steps == [] {
      more := states;
      assert s.ab + [] == s.ab;
    } else {
      var e := Apply(s.a, steps[0]);
      var t := s.(a := e.peer, ab := s.ab + OptFrame(e.frame));
      StepAlone(states, steps[0], t);
      more := RunAlone(states + [t], steps[1..], p);
      assert s.ab + SentBy(s.a, steps) == t.ab + SentBy(t.a, steps[1..]);
    }
  }

  lemma StepAlone(states: seq<Sys>, step: Step, t: Sys)
    requires T.Run(states) && Enabled(T.Last(states).a, step) && Alone(step)
    requires var s := T.Last(states); var e := Apply(s.a, step); t == s.(a := e.peer, ab := s.ab + OptFrame(e.frame))
    ensures T.Run(states + [t]) && T.Last(states + [t]) == t
  {
    RunIsCalm(states);
    hide Enabled, T.Run, Apply;
    var s := T.Last(states);
    assert StepA(s, Own(step), t);
    T.KeepsCalm(s.a, step);
    OneMore(states, Own(step), t);
  }

  lemma RunIsCalm(states: seq<Sys>)
    requires T.Run(states)
    ensures states != [] && Calm(T.Last(states))
  {
  }

  lemma Fresh(cfgA: Config, cfgB: Config) returns (states: seq<Sys>)
    requires T.UsableConfig(cfgA) && T.UsableConfig(cfgB)
    ensures T.Run(states) && T.Last(states) == Sys(NewPeer(cfgA), NewPeer(cfgB), [], [])
  {
    states := [Sys(NewPeer(cfgA), NewPeer(cfgB), [], [])];
  }

  // ----- a peer with one stream -----

  /** A peer whose only handle is the first one for `id`, with the record `sh`. */
  function OnePeer(cfg: Config, id: StreamId, sh: Shared, cmds: seq<Command>, adopted: bool, write: Option<Frame>, hist: History): Peer {
    var h := Only0(id);
    Peer(Registry(cfg, map[0 := sh], 1, if sh.activated then map[id := 0] else map[], if sh.activated then map[] else map[id := 0],
                  map[], {}, 0),
         map[h := 0], map[h := Queue(cmds, adopted, true)], Driver(Active, None, None, None, false, write, []), hist)
  }

  function Opened(id: StreamId): History { History([], {Only0(id)}, {}, {}, map[], map[]) }

  function Inactive(id: StreamId): Shared { StreamModel.Fresh(id).(claimed := true) }

  lemma OpensOne(cfg: Config, id: StreamId)
    requires id != SESSION
    ensures var p := OnePeer(cfg, id, Inactive(id), [], false, None, Opened(id));
            Enabled(NewPeer(cfg), Opening(Only0(id))) && Apply(NewPeer(cfg), Opening(Only0(id))) == Emission(p, None)
  {
  }

  /** The one command of the stream goes through the driver to the link. */
  lemma SendsOne(cfg: Config, id: StreamId, sh: Shared, c: Command, hist: History)
    requires sh.activated && hist.sent == []
    ensures var h := Only0(id); var f := CommandFrame(c);
            var queued := OnePeer(cfg, id, sh, [c], false, None, hist);
            var done := OnePeer(cfg, id, sh, [], true, None, hist.(sent := [f]));
            PeerRuns.Run(queued, [Adopting(h), Taking(h), Emitting], done) && SentBy(queued, [Adopting(h), Taking(h), Emitting]) == [f]
  {
    var h := Only0(id);
    var f := CommandFrame(c);
    var p0 := OnePeer(cfg, id, sh, [c], false, None, hist);
    var p1 := OnePeer(cfg, id, sh, [c], true, None, hist);
    var p2 := OnePeer(cfg, id, sh, [], true, Some(f), hist);
    var p3 := OnePeer(cfg, id, sh, [], true, None, hist.(sent := [f]));
    assert [c][1..] == [];
    Adopts(p0, h, p1);
    TakesIt(p1, h, p2);
    Emits(p2, f, p3);
    ThreeSteps(p0, Adopting(h), p1, Taking(h), p2, Emitting, p3, None, None, Some(f));
  }

  lemma Adopts(p: Peer, h: HandleId, q: Peer)
    requires RegistryInHeap(p.reg) && p.drv.phase.Active? && h in p.queues && q == Adopt(p, h)
    ensures Enabled(p, Adopting(h)) && Apply(p, Adopting(h)) == Emission(q, None)
  {
    assert p.hist.sent + [] == p.hist.sent;
  }

  lemma TakesIt(p: Peer, h: HandleId, q: Peer)
    requires RegistryInHeap(p.reg) && p.drv.phase.Active? && OutboundIdle(p)
    requires h in p.queues && p.queues[h].adopted && |p.queues[h].cmds| > 0 && q == TakeCommand(p, h)
    ensures Enabled(p, Taking(h)) && Apply(p, Taking(h)) == Emission(q, None)
  {
    assert p.hist.sent + [] == p.hist.sent;
  }

  lemma Emits(p: Peer, f: Frame, q: Peer)
    requires RegistryInHeap(p.reg) && p.drv.phase.Active? && p.drv.pendingTerminate.None? && p.drv.pendingPong.None?
    requires p.drv.pendingWrite == Some(f) && q == p.(drv := p.drv.(pendingWrite := None), hist := p.hist.(sent := p.hist.sent + [f]))
    ensures Enabled(p, Emitting) && Apply(p, Emitting) == Emission(q, Some(f))
  {
  }

  lemma ThreeSteps(p0: Peer, s0: Step, p1: Peer, s1: Step, p2: Peer, s2: Step, p3: Peer, f0: Option<Frame>, f1: Option<Frame>, f2: Option<Frame>)
    requires Enabled(p0, s0) && Apply(p0, s0) == Emission(p1, f0)
    requires Enabled(p1, s1) && Apply(p1, s1) == Emission(p2, f1)
    requires Enabled(p2, s2) && Apply(p2, s2) == Emission(p3, f2)
    ensures PeerRuns.Run(p0, [s0, s1, s2], p3) && SentBy(p0, [s0, s1, s2]) == OptFrame(f0) + OptFrame(f1) + OptFrame(f2)
  {
    hide Enabled, Apply;
    var s := [s0, s1, s2];
    assert s[1..] == [s1, s2] && s[1..][1..] == [s2] && s[1..][1..][1..] == [];
    assert PeerRuns.Run(p3, [], p3) && SentBy(p3, []) == [];
    assert PeerRuns.Run(p2, [s2], p3) && SentBy(p2, [s2]) == OptFrame(f2) + [];
    assert PeerRuns.Run(p1, [s1, s2], p3) && SentBy(p1, [s1, s2]) == OptFrame(f1) + (OptFrame(f2) + []);
  }

  lemma ClaimsOne(cfg: Config, id: StreamId, sh: Shared, hist: History)
    requires cfg.maxStreams >= 1 && !sh.activated
    ensures var p := OnePeer(cfg, id, sh, [], false, None, hist);
            var q := OnePeer(cfg, id, sh.(activated := true, synPending := true), [], false, None, hist);
            PollActivate(p, Only0(id)) == Called(q, Done)
  {
    var reg := OnePeer(cfg, id, sh, [], false, None, hist).reg;
    var claimed := sh.(activated := true, synPending := true);
    assert reg.inactive - {id} == map[] && reg.streams[id := 0] == map[id := 0] && reg.heap[0 := claimed] == map[0 := claimed];
    assert |reg.streams| == 0 && |reg.owed| == 0;
  }

  lemma Queues(cfg: Config, id: StreamId, sh: Shared, now: Shared, c: Command, hist: History)
    requires now.activated == sh.activated
    ensures var p := OnePeer(cfg, id, sh, [], false, None, hist);
            Push(p, Only0(id), c).(reg := SetShared(p.reg, 0, now)) == OnePeer(cfg, id, now, [c], false, None, hist)
  {
    var h := Only0(id);
    assert map[0 := sh][0 := now] == map[0 := now];
    assert [] + [c] == [c];
    assert map[h := Queue([], false, true)][h := Queue([c], false, true)] == map[h := Queue([c], false, true)];
  }

  // ----- a first frame that opens nothing -----

  function ClosedEarly(id: StreamId): Shared { Inactive(id).(state := SendClosed, events := {InactiveClose}) }

  function EarlyHistory(id: StreamId): History { Opened(id).(early := {id}) }

  lemma ShutsInactive(cfg: Config, id: StreamId)
    ensures var h := Only0(id);
            var p := OnePeer(cfg, id, Inactive(id), [], false, None, Opened(id));
            var q := OnePeer(cfg, id, ClosedEarly(id), [], false, None, EarlyHistory(id));
            Enabled(p, Shutting(h)) && Apply(p, Shutting(h)) == Emission(q, None)
  {
    assert {} + {InactiveClose} == {InactiveClose};
    assert Mark(Inactive(id), InactiveClose) == ClosedEarly(id);
  }

  function Claimed(id: StreamId): Shared { ClosedEarly(id).(activated := true, synPending := true) }

  /** The write fails, but it claims a slot first. */
  lemma ClaimsInVain(cfg: Config, id: StreamId, data: seq<byte>)
    requires cfg.maxStreams >= 1
    ensures var h := Only0(id);
            var p := OnePeer(cfg, id, ClosedEarly(id), [], false, None, EarlyHistory(id));
            var q := OnePeer(cfg, id, Claimed(id), [], false, None, EarlyHistory(id));
            && Enabled(p, Writing(h, data)) && PollWrite(p, h, data) == Called(q, WriteZero)
            && Apply(p, Writing(h, data)) == Emission(q, None)
  {
    var h := Only0(id);
    var p := OnePeer(cfg, id, ClosedEarly(id), [], false, None, EarlyHistory(id));
    var q := OnePeer(cfg, id, Claimed(id), [], false, None, EarlyHistory(id));
    ClaimsOne(cfg, id, ClosedEarly(id), EarlyHistory(id));
  }

  function ClosedTwice(id: StreamId): Shared { Claimed(id).(events := {InactiveClose, LocalFin}) }

  lemma ShutsAgain(cfg: Config, id: StreamId)
    ensures var h := Only0(id);
            var p := OnePeer(cfg, id, Claimed(id), [], false, None, EarlyHistory(id));
            var q := OnePeer(cfg, id, ClosedTwice(id), [CloseStream(id)], false, None, EarlyHistory(id));
            Enabled(p, Shutting(h)) && Apply(p, Shutting(h)) == Emission(q, None)
  {
    assert {InactiveClose} + {LocalFin} == {InactiveClose, LocalFin};
    assert Mark(Claimed(id), LocalFin) == ClosedTwice(id);
    Queues(cfg, id, Claimed(id), ClosedTwice(id), CloseStream(id), EarlyHistory(id));
  }

  /** Open, close while inactive, write in vain, close again: for any id and any two
      configurations, a FIN is all that meets a peer without an entry. */
  lemma FinWithoutSyn(cfgA: Config, cfgB: Config, id: StreamId, data: seq<byte>) returns (states: seq<Sys>)
    requires T.UsableConfig(cfgA) && T.UsableConfig(cfgB) && id != SESSION
    ensures T.Run(states) && T.Last(states).ab == [FinFrame(id)]
    ensures var b := T.Last(states).b; T.Connected(b) && id !in b.reg.streams && id !in b.hist.reaped
  {
    hide Enabled, Apply, OnePeer, T.Run, T.Last;
    var h := Only0(id);
    var p1 := OnePeer(cfgA, id, Inactive(id), [], false, None, Opened(id));
    var p2 := OnePeer(cfgA, id, ClosedEarly(id), [], false, None, EarlyHistory(id));
    var p3 := OnePeer(cfgA, id, Claimed(id), [], false, None, EarlyHistory(id));
    var p4 := OnePeer(cfgA, id, ClosedTwice(id), [CloseStream(id)], false, None, EarlyHistory(id));
    states := Fresh(cfgA, cfgB);
    OpensOne(cfgA, id);
    states := Quietly(states, Opening(h), p1);
    ShutsInactive(cfgA, id);
    states := Quietly(states, Shutting(h), p2);
    ClaimsInVain(cfgA, id, data);
    states := Quietly(states, Writing(h, data), p3);
    ShutsAgain(cfgA, id);
    states := Quietly(states, Shutting(h), p4);
    SendsOne(cfgA, id, ClosedTwice(id), CloseStream(id), EarlyHistory(id));
    states := RunAlone(states, [Adopting(h), Taking(h), Emitting],
                       OnePeer(cfgA, id, ClosedTwice(id), [], true, None, EarlyHistory(id).(sent := [FinFrame(id)])));
    assert [] + [FinFrame(id)] == [FinFrame(id)];
  }

  /** A step that puts nothing on the link. */
  lemma Quietly(states: seq<Sys>, step: Step, p: Peer) returns (more: seq<Sys>)
    requires T.Run(states) && Alone(step) && Enabled(T.Last(states).a, step) && Apply(T.Last(states).a, step) == Emission(p, None)
    ensures T.Run(more) && T.Last(more) == T.Last(states).(a := p)
  {
    RunIsCalm(states);
    hide Enabled, Apply, T.Run;
    var t := T.Last(states).(a := p);
    assert T.Last(states).ab + [] == T.Last(states).ab;
    StepAlone(states, step, t);
    more := states + [t];
  }

  // ----- a new stream that finds the table full -----

  function Written(id: StreamId): Shared { Inactive(id).(activated := true, send := DEFAULT_CREDIT - 1) }

  function WroteOne(id: StreamId): History { Opened(id).(written := map[id := [0]]) }

  /** The first write opens the stream. */
  lemma WritesOne(cfg: Config, id: StreamId)
    requires cfg.maxStreams >= 1 && cfg.splitSend >= 1
    ensures var h := Only0(id);
            var p := OnePeer(cfg, id, Inactive(id), [], false, None, Opened(id));
            var q := OnePeer(cfg, id, Written(id), [SendFrame(DataFrame(id, [0], true))], false, None, WroteOne(id));
            Enabled(p, Writing(h, [0])) && Apply(p, Writing(h, [0])) == Emission(q, None)
  {
    var h := Only0(id);
    var p := OnePeer(cfg, id, Inactive(id), [], false, None, Opened(id));
    var m := OnePeer(cfg, id, Inactive(id).(activated := true, synPending := true), [], false, None, Opened(id));
    ClaimsOne(cfg, id, Inactive(id), Opened(id));
    SendsFirst(cfg, id, m);
  }

  lemma SendsFirst(cfg: Config, id: StreamId, m: Peer)
    requires cfg.splitSend >= 1
    requires m == OnePeer(cfg, id, Inactive(id).(activated := true, synPending := true), [], false, None, Opened(id))
    ensures SendData(m, Only0(id), [0]).peer
            == OnePeer(cfg, id, Written(id), [SendFrame(DataFrame(id, [0], true))], false, None, WroteOne(id))
  {
    assert Portion(cfg, DEFAULT_CREDIT, 1) == 1;
    var data: seq<byte> := [0];
    assert data[..1] == data && [] + data == data;
    assert m.hist.written[id := data] == map[id := data];
    Queues(cfg, id, Inactive(id).(activated := true, synPending := true), Written(id), SendFrame(DataFrame(id, [0], true)), WroteOne(id));
  }

  /** With one slot on each side, both peers open a stream of their own: whichever
      opening frame arrives first finds the other's table full, and ends the connection. */
  lemma TableFullHappens(cfg: Config, mine: StreamId, theirs: StreamId) returns (states: seq<Sys>, t: Sys)
    requires T.UsableConfig(cfg) && cfg.maxStreams == 1 && cfg.splitSend >= 1
    requires mine != SESSION && theirs != SESSION && mine != theirs
    ensures T.Run(states) && StepA(T.Last(states), Delivery, t) && TableFull(T.Last(states).a, T.Last(states).ba[0])
    ensures t.a.drv.terminating
  {
    hide Enabled, Apply, OnePeer, T.Run, T.Last;
    var their, my := Only0(theirs), Only0(mine);
    states := Fresh(cfg, cfg);
    OpensOne(cfg, theirs);
    states := Quietly(states, Opening(their), OnePeer(cfg, theirs, Inactive(theirs), [], false, None, Opened(theirs)));
    WritesOne(cfg, theirs);
    var f := DataFrame(theirs, [0], true);
    states := Quietly(states, Writing(their, [0]), OnePeer(cfg, theirs, Written(theirs), [SendFrame(f)], false, None, WroteOne(theirs)));
    SendsOne(cfg, theirs, Written(theirs), SendFrame(f), WroteOne(theirs));
    var sender := OnePeer(cfg, theirs, Written(theirs), [], true, None, WroteOne(theirs).(sent := [f]));
    states := RunAlone(states, [Adopting(their), Taking(their), Emitting], sender);
    assert [] + [f] == [f];
    T.FlipRun(states);
    states := seq(|states|, i requires 0 <= i < |states| => Flip(states[i]));
    OpensOne(cfg, mine);
    states := Quietly(states, Opening(my), OnePeer(cfg, mine, Inactive(mine), [], false, None, Opened(mine)));
    WritesOne(cfg, mine);
    var receiver := OnePeer(cfg, mine, Written(mine), [SendFrame(DataFrame(mine, [0], true))], false, None, WroteOne(mine));
    states := Quietly(states, Writing(my, [0]), receiver);
    t := ArrivesInVain(states, receiver, cfg, mine, f);
  }

  lemma FullTable(p: Peer, cfg: Config, id: StreamId, hist: History, cmds: seq<Command>, f: Frame)
    requires p == OnePeer(cfg, id, Written(id), cmds, false, None, hist) && cfg.maxStreams == 1
    requires f.header.tag.Data? && f.header.flags.syn && !f.header.flags.rst && f.header.id != id && WellFormed(f)
    ensures Enabled(p, Receiving(f)) && TableFull(p, f)
  {
    assert |p.reg.streams| == 1;
  }

  lemma Delivers(s: Sys) returns (t: Sys)
    requires s.ba != [] && Enabled(s.a, Receiving(s.ba[0]))
    ensures StepA(s, Delivery, t)
  {
    hide Apply, Enabled;
    t := Sys(Apply(s.a, Receiving(s.ba[0])).peer, s.b, s.ab, s.ba[1..]);
  }

  lemma ArrivesInVain(states: seq<Sys>, p: Peer, cfg: Config, id: StreamId, f: Frame) returns (t: Sys)
    requires T.Run(states) && T.Last(states).a == p && T.Last(states).ba == [f]
    requires p == OnePeer(cfg, id, Written(id), [SendFrame(DataFrame(id, [0], true))], false, None, WroteOne(id)) && cfg.maxStreams == 1
    requires f.header.tag.Data? && f.header.flags.syn && !f.header.flags.rst && f.header.id != id && WellFormed(f)
    ensures StepA(T.Last(states), Delivery, t) && TableFull(p, f) && t.a.drv.terminating
  {
    RunIsCalm(states);
    hide T.Run, Enabled, Apply, SysInv, OnePeer, TableFull, StepA;
    FullTable(p, cfg, id, WroteOne(id), [SendFrame(DataFrame(id, [0], true))], f);
    t := Delivers(T.Last(states));
    T.TerminatesIffTableFull(states, Delivery, t);
  }
}
