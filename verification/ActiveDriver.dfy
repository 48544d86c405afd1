/** The driver loop of an active connection over its socket (`poll` in
    mux/mux/src/connection/active.rs): every frame that the peer emits goes through the
    writer, and every frame that it reads comes out of the reader. */
module ActiveDriver {
  import opened Basics
  import opened Frames
  import opened PeerModel
  import PeerRuns
  import opened PeerAccounts
  import Answers = PeerAnswers
  import C = Codec
  import Io = FrameIo
  import opened X = FrameExchange
  import opened Endpoint

  /** `Socket` stands for errors of the socket and of what is read from it. */
  datatype Reason = ConnectionClosed | PeerError(code: int) | Socket

  /** What one poll of the active state came to. */
  datatype ActivePoll = Waits | Failed(why: Reason) | Crashed

  /** What the driver sees at the beginning of a pass. */
  datatype Scene = Scene(peer: Peer, write: Io.WriteState, script: seq<Io.Answer>, written: seq<byte>,
                         read: Io.ReadState, arriving: seq<byte>, ended: bool)

  /** What is still to be read. */
  function Incoming(s: Scene): seq<byte> { if Io.ReadStateOk(s.read) then Io.Partial(s.read) + s.arriving else s.arriving }

  /** A poll of the active state: the steps it took, the input it left, its passes and the
      scene at their end. */
  datatype Drive = Drive(steps: seq<Step>, rest: seq<byte>, scenes: seq<Scene>, last: Scene)

  ghost function SceneOf(active: Connection, io: Io.Io): Scene reads active, io, io.socket {
    Scene(active.Snapshot(), io.writeState, io.socket.script, io.socket.written, io.readState, io.socket.arriving, io.socket.ended)
  }

  /** The peer accounts for its bytes, and the writer was given what the peer has sent. */
  ghost predicate Linked(active: Connection, io: Io.Io) reads active, io, io.socket {
    Accountable(active.Snapshot()) && io.Valid() && io.sent == active.hist.sent
  }

  ghost predicate AllDriven(steps: seq<Step>) { forall i :: 0 <= i < |steps| ==> Endpoint.Driven(steps[i]) }

  /** The driver took these steps, and read off the input what they received. */
  ghost predicate Drove(start: Peer, input: seq<byte>, steps: seq<Step>, q: Peer, rest: seq<byte>) {
    PeerRuns.Run(start, steps, q) && AllDriven(steps) && Splits(input, Receipts(steps), rest)
  }

  /** Why the poll ended as it did. */
  ghost predicate Explains(end: Peer, rest: seq<byte>, came: ActivePoll) {
    match came
    case Waits =>
      end.drv.phase.Active? && (end.drv.pendingWrite.None? ==> end.reg.owed == map[] && NothingQueued(end.queues))
    case Crashed => end.drv.phase.Panicked?
    case Failed(ConnectionClosed) => end.drv.phase == HungUp(0) || (end.drv.phase.Active? && rest == [])
    case Failed(PeerError(code)) => end.drv.phase == HungUp(code) && code != 0
    case Failed(Socket) => end.drv.phase.Active?
  }

  function HangUpReason(code: int): Reason { if code == 0 then ConnectionClosed else PeerError(code) }

  // ----- lemmas about single steps -----

  lemma DroveNothing(p: Peer, input: seq<byte>)
    ensures Drove(p, input, [], p, input)
  {
    assert C.EncodeAll([]) + input == input;
  }

  /** One drive after another is a drive. */
  lemma DroveOn(start: Peer, input: seq<byte>, steps: seq<Step>, p: Peer, rest: seq<byte>, more: seq<Step>, q: Peer, left: seq<byte>)
    requires Drove(start, input, steps, p, rest) && Drove(p, rest, more, q, left)
    ensures Drove(start, input, steps + more, q, left)
  {
    hide PeerRuns.Run, Receipts, WellFormed, Splits;
    RunConcat(start, steps, p, more, q);
    ReceiptsConcat(steps, more);
    SplitsOn(input, Receipts(steps), rest, Receipts(more), left);
  }

  lemma DroveStep(p: Peer, step: Step, q: Peer, input: seq<byte>)
    requires Does(p, step, q) && Endpoint.Driven(step) && !step.Receiving?
    ensures Drove(p, input, [step], q, input)
  {
    hide Enabled, Apply;
    DroveNothing(q, input);
    assert [step][1..] == [];
    assert Receipts([step]) == [] + Receipts([]);
  }

  lemma DroveRead(p: Peer, f: Frame, q: Peer, input: seq<byte>, left: seq<byte>)
    requires Does(p, Receiving(f), q) && Splits(input, [f], left)
    ensures Drove(p, input, [Receiving(f)], q, left)
  {
    hide Enabled, Apply, Splits;
    assert [Receiving(f)][1..] == [];
    assert PeerRuns.Run(q, [], q);
    assert Receipts([Receiving(f)]) == [f] + Receipts([]);
    assert [f] + [] == [f];
  }

  lemma DroveAdoptions(p: Peer, steps: seq<Step>, q: Peer, input: seq<byte>)
    requires PeerRuns.Run(p, steps, q) && Receipts(steps) == [] && forall i :: 0 <= i < |steps| ==> steps[i].Adopting?
    ensures Drove(p, input, steps, q, input)
  {
    hide PeerRuns.Run, Receipts;
    DroveNothing(q, input);
  }

  /** What the driver does keeps the account, unless the peer panics. */
  lemma DrivenAccountable(p: Peer, step: Step, q: Peer)
    requires Accountable(p) && Does(p, step, q) && Endpoint.Driven(step) && !q.drv.phase.Panicked?
    ensures Accountable(q)
  {
    hide Accountable, Enabled, Apply;
    StepAccountable(p, step);
  }

  lemma AdoptedAccountable(p: Peer, steps: seq<Step>, q: Peer)
    requires Accountable(p) && PeerRuns.Run(p, steps, q) && q.drv.phase.Active? && forall i :: 0 <= i < |steps| ==> steps[i].Adopting?
    ensures Accountable(q)
  {
    hide Accountable;
    RunAccountable(p, steps, q);
  }

  lemma SentIsWellFormed(p: Peer, step: Step, q: Peer, f: Frame)
    requires Accountable(p) && Does(p, step, q) && (step.Pinging? || step.Emitting?) && q.hist.sent == p.hist.sent + [f]
    ensures WellFormed(f)
  {
    SendingOrderly(p, step);
    hide Accountable, WellFormed;
    SentIs(p, step, q, f);
  }

  lemma SentIs(p: Peer, step: Step, q: Peer, f: Frame)
    requires Does(p, step, q) && (step.Pinging? || step.Emitting?) && q.hist.sent == p.hist.sent + [f]
    ensures Apply(p, step).frame == Some(f)
  {
    var e := Act(p, step);
    assert e.peer.hist == p.hist;
    var sent := p.hist.sent + OptFrame(e.frame);
    assert q.hist.sent == sent && |sent| == |p.hist.sent| + 1;
    assert sent[|p.hist.sent|] == f;
  }

  lemma AccountableMeans(p: Peer)
    requires Accountable(p)
    ensures PeerInvariants.Inv(p) && !p.drv.phase.Panicked? && !ChannelsClosed(p)
  {
    hide PeerInvariants.Inv, LaneView.Single, TwoPeers.WireOk, AllAccounted;
  }

  // ----- one pass of the loop -----

  /** What a pass came to before it turns to reading. */
  datatype Round = Moved | Idle | FlushFailed

  /** With the writer ready, or failing, a peer that has something to send hands it over. */
  ghost predicate Starts(s: Scene, ping: Option<int>, o: Io.Written, t: Scene)
    requires Sends(s.peer, ping).Some?
  {
    var (step, f) := Sends(s.peer, ping).value;
    WellFormed(f) && Does(s.peer, step, t.peer) && t == s.(peer := t.peer, write := Io.Starting(f), script := o.script, written := s.written + o.bytes)
  }

  ghost predicate Serves(p: Peer, q: Peer) {
    exists step: Step :: (step.FlushingOwed? || step.Taking? || step.Reaping?) && Does(p, step, q)
  }

  /** A frame goes out, or the writer goes on and what is owed or queued is served. */
  ghost predicate Went(s: Scene, ping: Option<int>, round: Round, t: Scene) {
    && Io.WriteStateOk(s.write)
    && var o := Io.WriteOut(s.write, s.script);
       if !o.reply.NotYet? && Sends(s.peer, ping).Some? then round.Moved? && Starts(s, ping, o, t)
       else
         var u := Io.WriteOut(o.state, o.script);
         var after := s.(write := u.state, script := u.script, written := s.written + o.bytes + u.bytes);
         if Io.Faulty(u.reply) then round.FlushFailed? && t == after
         else if Servable(s.peer) then round.Moved? && Serves(s.peer, t.peer) && t == after.(peer := t.peer)
         else round.Idle? && t == after
  }

  /** The writer reports an error, and still a frame is started. */
  ghost predicate Overruns(s: Scene, ping: Option<int>) {
    Io.WriteStateOk(s.write) && Io.Faulty(Io.WriteOut(s.write, s.script).reply) && Sends(s.peer, ping).Some?
  }

  /** A pass that begins so tears a frame. */
  ghost predicate Tears(s: Scene, ping: Option<int>) { Overruns(s.(peer := Adopted(s.peer)), ping) }

  /** Some pass of a poll does. */
  ghost predicate Torn(pings: seq<Option<int>>, scenes: seq<Scene>) {
    exists i :: 0 <= i < |scenes| - 1 && Tears(scenes[i], PingAt(pings, i))
  }

  lemma TornOn(pings: seq<Option<int>>, scenes: seq<Scene>, t: Scene)
    requires scenes != []
    ensures Torn(pings, scenes + [t]) <==> Torn(pings, scenes) || Tears(scenes[|scenes| - 1], PingAt(pings, |scenes| - 1))
  {
    hide Tears;
    var more := scenes + [t];
    if i :| 0 <= i < |scenes| - 1 && Tears(scenes[i], PingAt(pings, i)) { assert Tears(more[i], PingAt(pings, i)); }
    if Tears(scenes[|scenes| - 1], PingAt(pings, |scenes| - 1)) { assert Tears(more[|scenes| - 1], PingAt(pings, |scenes| - 1)); }
  }

  /** What a pass does to the writer and its socket, and how it ends. */
  ghost predicate Passed(s: Scene, ping: Option<int>, came: Option<ActivePoll>, t: Scene) {
    exists round, m :: Went(s.(peer := Adopted(s.peer)), ping, round, m) && Ended(m, round, came, t)
  }

  ghost predicate Ended(m: Scene, round: Round, came: Option<ActivePoll>, t: Scene) {
    match round
    case Moved => came.None? && t == m
    case FlushFailed => came == Some(Failed(Socket)) && t == m
    case Idle => exists got :: ReadEnds(m, got, came, t)
  }

  /** The input ended between two frames, and the socket said so. */
  ghost predicate CleanEnd(m: Scene, t: Scene) { Incoming(m) == [] && m.ended && Took(Io.LastUsed(m.script, t.script)) }

  /** How an attempt to read ends. A frame is received, and the peer's phase says what comes of
      it. Without one the connection is closed if and only if the input ended cleanly; it
      has failed only if the socket reports an error or the input cannot be read on; and it
      waits only for the socket. */
  ghost predicate ReadEnds(m: Scene, got: Option<Frame>, came: Option<ActivePoll>, t: Scene) {
    && t.write == m.write && t.written == m.written && t.ended == m.ended && Io.Uses(m.script, t.script)
    && var last := Io.LastUsed(m.script, t.script);
       match got
       case Some(f) =>
         && last != Some(Io.Later) && last != Some(Io.Fault)
         && Splits(Incoming(m), [f], Incoming(t)) && Does(m.peer, Receiving(f), t.peer)
         && (t.peer.drv.phase.Active? <==> came.None?) && (t.peer.drv.phase.Panicked? <==> came == Some(ActivePoll.Crashed))
         && (forall code :: t.peer.drv.phase == HungUp(code) ==> came == Some(Failed(if code == 0 then ConnectionClosed else PeerError(code))))
       case None =>
         && t.peer == m.peer
         && (came == Some(Waits) || came == Some(Failed(ConnectionClosed)) || came == Some(Failed(Socket)))
         && (came == Some(Failed(ConnectionClosed)) <==> CleanEnd(m, t))
         && (last == Some(Io.Fault) ==> came == Some(Failed(Socket))) && (last == Some(Io.Later) ==> came == Some(Waits))
         && (came == Some(Failed(Socket)) ==> last == Some(Io.Fault) || CannotGoOn(Incoming(m), m.ended))
         && (came == Some(Waits) ==> Incoming(t) == Incoming(m) && NoMoreNow(m.script, t.script, t.arriving, t.ended))
  }

  function PingAt(pings: seq<Option<int>>, i: nat): Option<int> { if i < |pings| then pings[i] else None }

  /** Passes that go on, from the scene `s` to the scene `t`. */
  ghost predicate Passes(pings: seq<Option<int>>, scenes: seq<Scene>, s: Scene, t: Scene) {
    && scenes != [] && scenes[0] == s && scenes[|scenes| - 1] == t
    && forall i :: 0 <= i < |scenes| - 1 ==> Passed(scenes[i], PingAt(pings, i), None, scenes[i + 1])
  }

  /** The passes of a poll, the last of which ends it. */
  ghost predicate Traced(pings: seq<Option<int>>, scenes: seq<Scene>, s: Scene, came: ActivePoll, t: Scene) {
    && |scenes| >= 2 && scenes[|scenes| - 1] == t
    && Passes(pings, scenes[..|scenes| - 1], s, scenes[|scenes| - 2])
    && Passed(scenes[|scenes| - 2], PingAt(pings, |scenes| - 2), Some(came), t)
  }

  lemma PassesOn(pings: seq<Option<int>>, scenes: seq<Scene>, s: Scene, m: Scene, came: Option<ActivePoll>, t: Scene)
    requires Passes(pings, scenes, s, m) && Passed(m, PingAt(pings, |scenes| - 1), came, t)
    ensures came.None? ==> Passes(pings, scenes + [t], s, t)
    ensures came.Some? ==> Traced(pings, scenes + [t], s, came.value, t)
    ensures Torn(pings, scenes + [t]) <==> Torn(pings, scenes) || Tears(m, PingAt(pings, |scenes| - 1))
  {
    hide Passed, Torn, Tears;
    TornOn(pings, scenes, t);
    assert (scenes + [t])[..|scenes + [t]| - 1] == scenes;
  }

  /** A poll of the active state: a run of the peer model that reads exactly the frames taken
      off the input, with the reason why it ended, in passes that the answers of the socket
      decide. */
  ghost predicate Polled(s: Scene, input: seq<byte>, pings: seq<Option<int>>, d: Drive, came: ActivePoll) {
    && Drove(s.peer, input, d.steps, d.last.peer, d.rest) && Explains(d.last.peer, d.rest, came)
    && Traced(pings, d.scenes, s, came, d.last)
  }

  /** A writer that can take a frame is the higher rank: starting one lowers it. */
  function WriterRank(w: Io.WriteState): nat { if w.WInit? || w.Poisoned? then 1 else 0 }

  /** When the writer stays intact: if no frame is started on an error, and, unless the
      socket has claimed too much, only then. */
  ghost predicate Exact(wasIntact: bool, torn: bool, hadOverReported: bool, io: Io.Io) reads io {
    && (hadOverReported ==> io.overReported) && (!torn ==> io.intact == wasIntact)
    && (!io.overReported ==> (io.intact <==> wasIntact && !torn))
  }

  /** The frame that the peer sends now, if any, is handed to the writer. */
  method HandOver(active: Connection, io: Io.Io, ping: Option<int>) returns (moved: bool, ghost step: Step)
    requires Linked(active, io) && active.phase.Active? && (ping.Some? ==> 0 <= ping.value <= U32_MAX)
    modifies active, io`writeState, io`sent, io`left, io`intact
    ensures Linked(active, io) && active.phase.Active? && active.queues == old(active.queues)
    ensures step.Pinging? || step.Emitting?
    ensures moved ==>
              && Does(old(active.Snapshot()), step, active.Snapshot()) && old(Sends(active.Snapshot(), ping)).Some?
              && old(Sends(active.Snapshot(), ping)).value.0 == step && WellFormed(old(Sends(active.Snapshot(), ping)).value.1)
              && io.writeState == Io.Starting(old(Sends(active.Snapshot(), ping)).value.1)
              && (!io.overReported ==> (io.intact <==> old(io.intact) && old(io.writeState).WInit?))
              && (old(io.writeState).WInit? ==> io.intact == old(io.intact))
    ensures !moved ==>
              && active.Snapshot() == old(active.Snapshot()) && old(Sends(active.Snapshot(), ping)).None?
              && io.writeState == old(io.writeState) && io.intact == old(io.intact)
  {
    hide Accountable, Does, C.EncodeAll, WellFormed, Sends, Io.Starting, Io.Unsent, Io.WriteStateOk, Io.ReadStateOk;
    ghost var p := active.Snapshot();
    AccountableMeans(p);
    if io.writeState.WInit? { ReadyHasNothingLeft(io); }
    var frame;
    frame, step := active.SendOne(ping);
    if frame.None? { return false, step; }
    SentIsWellFormed(p, step, active.Snapshot(), frame.value);
    DrivenAccountable(p, step, active.Snapshot());
    io.StartSend(frame.value);
    moved := true;
  }

  lemma ReadyHasNothingLeft(io: Io.Io)
    requires io.Valid() && io.writeState.WInit?
    ensures io.left == []
  {
  }

  /** With the writer ready, or failing, the next frame is handed to it. As long as the
      socket claims no more bytes than it was offered, a frame is torn if and only if the
      writer reported an error. */
  method SendReady(active: Connection, io: Io.Io, ping: Option<int>) returns (moved: bool, fault: bool, ghost step: Step)
    requires Linked(active, io) && active.phase.Active? && (ping.Some? ==> 0 <= ping.value <= U32_MAX)
    modifies active, io, io.socket`script, io.socket`written
    ensures Linked(active, io) && active.phase.Active? && active.queues == old(active.queues)
    ensures moved ==> Does(old(active.Snapshot()), step, active.Snapshot()) && (step.Pinging? || step.Emitting?)
    ensures !moved ==> active.Snapshot() == old(active.Snapshot())
    ensures io.readState == old(io.readState) && io.Input() == old(io.Input())
    ensures var s := old(SceneOf(active, io));
            var o := Io.WriteOut(s.write, s.script);
            && (fault <==> Io.Faulty(o.reply)) && (moved <==> !o.reply.NotYet? && Sends(s.peer, ping).Some?)
            && if moved then Starts(s, ping, o, SceneOf(active, io))
               else SceneOf(active, io) == s.(write := o.state, script := o.script, written := s.written + o.bytes)
    ensures Exact(old(io.intact), Overruns(old(SceneOf(active, io)), ping), old(io.overReported), io)
    ensures |io.socket.script| <= |old(io.socket.script)|
    ensures |io.socket.script| == |old(io.socket.script)| ==>
              if moved then WriterRank(io.writeState) < WriterRank(old(io.writeState)) else io.writeState == old(io.writeState)
  {
    hide Accountable, Does, C.EncodeAll, WellFormed, Io.WriteOut, Sends, Io.Unsent, Io.WriteStateOk, Io.ReadStateOk;
    var w := io.PollReady();
    fault, step := !w.Done? && !w.NotYet?, Emitting;
    if w.NotYet? { return false, fault, step; }
    moved, step := HandOver(active, io, ping);
  }

  /** Read what has arrived: a frame, or the reason why there is none. */
  method ReadNext(active: Connection, io: Io.Io) returns (came: Option<ActivePoll>, ghost got: Option<Frame>)
    requires Linked(active, io) && active.phase.Active? && (active.pendingWrite.None? ==> active.owed == map[])
    modifies active, io`readState, io.socket`script, io.socket`arriving
    ensures io.Valid()
    ensures got.Some? ==>
              && Does(old(active.Snapshot()), Receiving(got.value), active.Snapshot())
              && Splits(old(io.Input()), [got.value], io.Input()) && |io.Input()| < |old(io.Input())|
    ensures got.None? ==> came.Some? && active.Snapshot() == old(active.Snapshot())
    ensures came != Some(Crashed) ==> Linked(active, io)
    ensures (came.None? ==> active.phase.Active?) && (active.phase.Active? || active.phase.HungUp? || active.phase.Panicked?)
    ensures came == Some(Waits) ==> io.Input() == old(io.Input())
    ensures ReadEnds(old(SceneOf(active, io)), got, came, SceneOf(active, io))
  {
    hide Accountable, Does, C.EncodeAll, Splits, C.ParseFrame, Io.Reads, Io.ItemOk, Io.LastUsed, Io.Uses, NoMoreNow, CannotGoOn, ReadEnds;
    ghost var m := SceneOf(active, io);
    AccountableMeans(m.peer);
    ghost var input := io.Input();
    var item := io.PollNext();
    got := None;
    if item.Got? {
      GotIsFirst(input, item, io.Input(), io.socket.arriving, io.socket.ended, io.readState);
      FirstIsWellFormed(input, item.frame, io.Input());
      GotUsed(m.script, io.socket.script, m.arriving, io.socket.arriving, m.ended, item);
      got := Some(item.frame);
      ghost var step := active.ReadOne(item.frame);
      if active.phase.Panicked? {
        came := Some(Crashed);
      } else {
        DrivenAccountable(m.peer, step, active.Snapshot());
        came := if active.phase.HungUp? then Some(Failed(HangUpReason(active.phase.code))) else None;
      }
      FrameEnds(m, item.frame, came, SceneOf(active, io));
      return;
    }
    NoFrameMeans(input, item, io.Input(), io.socket.arriving, io.socket.ended, io.readState, m.script, io.socket.script, m.arriving);
    match item {
      case End => came := Some(Failed(ConnectionClosed));
      case Waiting => came := Some(Waits);
      case _ => came := Some(Failed(Socket));
    }
    NoFrameEnds(m, item, came, SceneOf(active, io));
  }

  lemma FrameEnds(m: Scene, f: Frame, came: Option<ActivePoll>, t: Scene)
    requires t.write == m.write && t.written == m.written && t.ended == m.ended && Io.Uses(m.script, t.script)
    requires Io.LastUsed(m.script, t.script) != Some(Io.Later) && Io.LastUsed(m.script, t.script) != Some(Io.Fault)
    requires Splits(Incoming(m), [f], Incoming(t)) && Does(m.peer, Receiving(f), t.peer)
    requires t.peer.drv.phase.Active? || t.peer.drv.phase.HungUp? || t.peer.drv.phase.Panicked?
    requires came == match t.peer.drv.phase
                     case Panicked => Some(Crashed)
                     case HungUp(code) => Some(Failed(HangUpReason(code)))
                     case _ => None
    ensures ReadEnds(m, Some(f), came, t)
  {
    hide Splits, Does, Io.Uses, Io.LastUsed;
  }

  lemma NoFrameEnds(m: Scene, item: Io.Item, came: Option<ActivePoll>, t: Scene)
    requires t.peer == m.peer && t.write == m.write && t.written == m.written && t.ended == m.ended && Io.Uses(m.script, t.script)
    requires !item.Got? && (item.End? <==> CleanEnd(m, t))
    requires var last := Io.LastUsed(m.script, t.script);
             && (last == Some(Io.Later) ==> item.Waiting?) && (last == Some(Io.Fault) <==> item.ReadFailed?)
             && (item.Waiting? ==> Incoming(t) == Incoming(m) && NoMoreNow(m.script, t.script, t.arriving, t.ended))
             && (!item.End? && !item.Waiting? ==> last == Some(Io.Fault) || CannotGoOn(Incoming(m), m.ended))
    requires came == Some(match item
                          case End => Failed(ConnectionClosed)
                          case Waiting => Waits
                          case _ => Failed(Socket))
    ensures ReadEnds(m, None, came, t)
  {
    hide CannotGoOn, NoMoreNow, Io.Uses, Io.LastUsed, Incoming, CleanEnd;
  }

  lemma GotUsed(before: seq<Io.Answer>, after: seq<Io.Answer>, came: seq<byte>, left: seq<byte>, ended: bool, item: Io.Item)
    requires Io.Reads(before, after, came, left, ended, item) && item.Got?
    ensures Io.Uses(before, after) && Io.LastUsed(before, after) != Some(Io.Later) && Io.LastUsed(before, after) != Some(Io.Fault)
  {
  }

  /** The writer goes on with the frame that it has. */
  method GoOn(active: Connection, io: Io.Io) returns (w: Io.Reply)
    requires Linked(active, io)
    modifies io`writeState, io`left, io`overReported, io.socket`script, io.socket`written
    ensures Linked(active, io) && io.Input() == old(io.Input()) && Io.WriteStateOk(old(io.writeState))
    ensures var s := old(SceneOf(active, io));
            var o := Io.WriteOut(s.write, s.script);
            w == o.reply && SceneOf(active, io) == s.(write := o.state, script := o.script, written := s.written + o.bytes)
    ensures Exact(old(io.intact), false, old(io.overReported), io)
    ensures |io.socket.script| <= |old(io.socket.script)|
    ensures |io.socket.script| == |old(io.socket.script)| ==> io.writeState == old(io.writeState)
  {
    hide Accountable, C.EncodeAll, WellFormed, Io.WriteOut, Io.Unsent;
    w := io.PollReady();
  }

  /** What is owed or queued is served. */
  method Serve(active: Connection, io: Io.Io) returns (served: bool, ghost step: Step)
    requires Linked(active, io) && active.phase.Active? && forall h :: h in active.queues ==> active.queues[h].adopted
    modifies active
    ensures Linked(active, io) && active.phase.Active? && (served <==> old(Servable(active.Snapshot())))
    ensures served ==>
              && Does(old(active.Snapshot()), step, active.Snapshot()) && (step.FlushingOwed? || step.Taking? || step.Reaping?)
              && (|active.queues| < |old(active.queues)|
                  || (|active.queues| == |old(active.queues)| && old(active.pendingWrite).None? && active.pendingWrite.Some?))
    ensures !served ==> active.Snapshot() == old(active.Snapshot())
  {
    hide Accountable, Does, NothingQueued, C.EncodeAll, WellFormed, Io.Unsent, Io.WriteStateOk, Io.ReadStateOk;
    ghost var p := active.Snapshot();
    AccountableMeans(p);
    served, step := active.ServeOne();
    if served {
      ServedWasServable(p, step, active.Snapshot());
      DrivenAccountable(p, step, active.Snapshot());
    }
  }

  /** A frame goes out, or what is owed or queued is served; otherwise the writer is
      given the chance to go on. */
  method SendOrServe(active: Connection, io: Io.Io, ping: Option<int>) returns (round: Round, ghost step: Step)
    requires Linked(active, io) && active.phase.Active? && (ping.Some? ==> 0 <= ping.value <= U32_MAX)
    requires forall h :: h in active.queues ==> active.queues[h].adopted
    modifies active, io, io.socket`script, io.socket`written
    ensures Linked(active, io) && active.phase.Active? && io.Input() == old(io.Input())
    ensures round.Moved? ==> Does(old(active.Snapshot()), step, active.Snapshot()) && Endpoint.Driven(step) && !step.Receiving?
    ensures !round.Moved? ==> active.Snapshot() == old(active.Snapshot())
    ensures round.Idle? ==> !Servable(active.Snapshot())
    ensures Went(old(SceneOf(active, io)), ping, round, SceneOf(active, io))
    ensures Exact(old(io.intact), Overruns(old(SceneOf(active, io)), ping), old(io.overReported), io)
    ensures |io.socket.script| <= |old(io.socket.script)|
    ensures round.Moved? ==>
              (|old(io.socket.script)|, WriterRank(old(io.writeState)), |old(active.queues)|, old(active.pendingWrite).None?
               decreases to |io.socket.script|, WriterRank(io.writeState), |active.queues|, active.pendingWrite.None?)
  {
    hide Accountable, Does, NothingQueued, C.EncodeAll, Io.WriteOut, Sends, Starts, Servable, WellFormed, Went, Io.Unsent, Io.WriteStateOk, Io.ReadStateOk;
    ghost var s := SceneOf(active, io);
    WriterOk(io);
    var moved, fault;
    moved, fault, step := SendReady(active, io, ping);
    if moved {
      WentOut(s, ping, SceneOf(active, io));
      return Moved, step;
    }
    ghost var m := SceneOf(active, io);
    var w := GoOn(active, io);
    ghost var u := SceneOf(active, io);
    WentOn(s, ping, m, u);
    if !w.Done? && !w.NotYet? { return FlushFailed, step; }
    moved, step := Serve(active, io);
    if !moved { return Idle, step; }
    WentServing(s, ping, m, u, step, active.Snapshot());
    round := Moved;
  }

  lemma WriterOk(io: Io.Io)
    requires io.Valid()
    ensures Io.WriteStateOk(io.writeState)
  {
  }

  lemma WentOut(s: Scene, ping: Option<int>, t: Scene)
    requires Io.WriteStateOk(s.write) && Sends(s.peer, ping).Some?
    requires var o := Io.WriteOut(s.write, s.script); !o.reply.NotYet? && Starts(s, ping, o, t)
    ensures Went(s, ping, Moved, t)
  {
    hide Starts, Io.WriteOut, Sends;
  }

  /** No frame went out: the writer was polled once more. */
  ghost predicate Flushing(s: Scene, ping: Option<int>, m: Scene, u: Scene) {
    && Io.WriteStateOk(s.write) && Io.WriteStateOk(m.write)
    && (Io.WriteOut(s.write, s.script).reply.NotYet? || Sends(s.peer, ping).None?)
    && (var o := Io.WriteOut(s.write, s.script); m == s.(write := o.state, script := o.script, written := s.written + o.bytes))
    && (var v := Io.WriteOut(m.write, m.script); u == m.(write := v.state, script := v.script, written := m.written + v.bytes))
  }

  lemma WentOn(s: Scene, ping: Option<int>, m: Scene, u: Scene)
    requires Flushing(s, ping, m, u)
    ensures Io.Faulty(Io.WriteOut(m.write, m.script).reply) ==> Went(s, ping, FlushFailed, u)
    ensures !Io.Faulty(Io.WriteOut(m.write, m.script).reply) && !Servable(s.peer) ==> Went(s, ping, Idle, u)
  {
    hide Starts, Io.WriteOut, Sends, Servable;
  }

  lemma WentServing(s: Scene, ping: Option<int>, m: Scene, u: Scene, step: Step, q: Peer)
    requires Flushing(s, ping, m, u) && !Io.Faulty(Io.WriteOut(m.write, m.script).reply) && Servable(s.peer)
    requires (step.FlushingOwed? || step.Taking? || step.Reaping?) && Does(s.peer, step, q)
    ensures Went(s, ping, Moved, u.(peer := q))
  {
    hide Starts, Io.WriteOut, Sends, Servable, Does;
    assert Serves(s.peer, q);
  }

  /** The channels of handles opened since the last round are adopted. */
  method AdoptNew(active: Connection, io: Io.Io) returns (ghost steps: seq<Step>)
    requires Linked(active, io) && active.phase.Active?
    modifies active
    ensures Linked(active, io) && active.phase.Active? && forall h :: h in active.queues ==> active.queues[h].adopted
    ensures Drove(old(active.Snapshot()), io.Input(), steps, active.Snapshot(), io.Input())
    ensures |active.queues| == |old(active.queues)| && active.pendingWrite == old(active.pendingWrite)
    ensures active.Snapshot() == Adopted(old(active.Snapshot()))
  {
    hide Accountable, Drove, C.EncodeAll, WellFormed;
    ghost var p := active.Snapshot();
    AccountableMeans(p);
    steps := active.AdoptAll();
    DroveAdoptions(p, steps, active.Snapshot(), io.Input());
    AdoptedAccountable(p, steps, active.Snapshot());
  }

  /** A pass before it turns to reading. */
  method BeforeReading(active: Connection, io: Io.Io, ping: Option<int>) returns (round: Round, ghost steps: seq<Step>)
    requires Linked(active, io) && active.phase.Active? && (ping.Some? ==> 0 <= ping.value <= U32_MAX)
    modifies active, io, io.socket`script, io.socket`written
    ensures Linked(active, io) && active.phase.Active? && io.Input() == old(io.Input())
    ensures Drove(old(active.Snapshot()), old(io.Input()), steps, active.Snapshot(), old(io.Input()))
    ensures round.Idle? && active.pendingWrite.None? ==> active.owed == map[] && NothingQueued(active.queues)
    ensures Went(old(SceneOf(active, io)).(peer := Adopted(old(active.Snapshot()))), ping, round, SceneOf(active, io))
    ensures Exact(old(io.intact), Tears(old(SceneOf(active, io)), ping), old(io.overReported), io)
    ensures |io.socket.script| <= |old(io.socket.script)|
    ensures round.Moved? ==>
              (|old(io.socket.script)|, WriterRank(old(io.writeState)), |old(active.queues)|, old(active.pendingWrite).None?
               decreases to |io.socket.script|, WriterRank(io.writeState), |active.queues|, active.pendingWrite.None?)
  {
    hide Accountable, Does, Drove, NothingQueued, C.EncodeAll, WellFormed, Splits, Went, Adopted, Overruns, Io.WriteStateOk, Io.Unsent;
    ghost var p, input := active.Snapshot(), io.Input();
    steps := AdoptNew(active, io);
    ghost var m := active.Snapshot();
    ghost var step;
    round, step := SendOrServe(active, io, ping);
    if round.Moved? {
      DroveStep(m, step, active.Snapshot(), input);
      DroveOn(p, input, steps, m, input, [step], active.Snapshot(), input);
      steps := steps + [step];
    }
  }

  /** The rest of a pass that has nothing else to do. */
  method ReadPass(active: Connection, io: Io.Io) returns (came: Option<ActivePoll>, ghost steps: seq<Step>, ghost rest: seq<byte>)
    requires Linked(active, io) && active.phase.Active?
    requires active.pendingWrite.None? ==> active.owed == map[] && NothingQueued(active.queues)
    modifies active, io`readState, io.socket`script, io.socket`arriving
    ensures io.Valid() && Drove(old(active.Snapshot()), old(io.Input()), steps, active.Snapshot(), rest)
    ensures Ended(old(SceneOf(active, io)), Idle, came, SceneOf(active, io))
    ensures came.Some? ==> Explains(active.Snapshot(), rest, came.value)
    ensures came != Some(ActivePoll.Crashed) ==> Linked(active, io)
    ensures came.None? || came == Some(Waits) ==> io.Input() == rest && active.phase.Active?
    ensures came.None? ==> |io.Input()| < |old(io.Input())|
  {
    hide Accountable, Does, Drove, NothingQueued, C.EncodeAll, WellFormed, Splits, Ended, ReadEnds, Io.WriteStateOk, Io.Unsent;
    ghost var s, input := SceneOf(active, io), io.Input();
    ghost var got;
    came, got := ReadNext(active, io);
    ReadEnded(s, got, came, SceneOf(active, io));
    if came.Some? { ReadExplains(s, got, came, SceneOf(active, io)); }
    DroveNothing(s.peer, input);
    steps, rest := [], input;
    if got.Some? {
      DroveRead(s.peer, got.value, active.Snapshot(), input, io.Input());
      steps, rest := [Receiving(got.value)], io.Input();
    }
  }

  /** One pass of the loop: it moves on, or the poll ends. */
  method OnePass(active: Connection, io: Io.Io, ping: Option<int>) returns (came: Option<ActivePoll>, ghost d: Drive)
    requires Linked(active, io) && active.phase.Active? && (ping.Some? ==> 0 <= ping.value <= U32_MAX)
    modifies active, io, io.socket
    ensures io.Valid() && Drove(old(active.Snapshot()), old(io.Input()), d.steps, d.last.peer, d.rest)
    ensures d.last == SceneOf(active, io) && Exact(old(io.intact), Tears(old(SceneOf(active, io)), ping), old(io.overReported), io)
    ensures Passed(old(SceneOf(active, io)), ping, came, SceneOf(active, io))
    ensures came.Some? ==> Explains(d.last.peer, d.rest, came.value)
    ensures came != Some(ActivePoll.Crashed) ==> Linked(active, io)
    ensures came.None? || came == Some(Waits) ==> io.Input() == d.rest && active.phase.Active?
    ensures came.None? ==>
              (|old(io.Input())|, |old(io.socket.script)|, WriterRank(old(io.writeState)), |old(active.queues)|, old(active.pendingWrite).None?
               decreases to |io.Input()|, |io.socket.script|, WriterRank(io.writeState), |active.queues|, active.pendingWrite.None?)
  {
    hide Accountable, Does, Drove, NothingQueued, C.EncodeAll, WellFormed, Splits, Went, Passed, Ended, Tears, Io.WriteStateOk, Io.Unsent;
    ghost var s, input := SceneOf(active, io), io.Input();
    var round;
    ghost var steps;
    round, steps := BeforeReading(active, io, ping);
    ghost var m := SceneOf(active, io);
    d := Drive(steps, input, [], m);
    if !round.Idle? {
      came := if round.Moved? then None else Some(Failed(Socket));
      PassedBy(s, ping, round, m, came, m);
      return;
    }
    ghost var more, rest;
    came, more, rest := ReadPass(active, io);
    PassedBy(s, ping, round, m, came, SceneOf(active, io));
    DroveOn(s.peer, input, steps, m.peer, input, more, active.Snapshot(), rest);
    d := Drive(steps + more, rest, [], SceneOf(active, io));
  }

  lemma ReadEnded(m: Scene, got: Option<Frame>, came: Option<ActivePoll>, t: Scene)
    requires ReadEnds(m, got, came, t)
    ensures Ended(m, Idle, came, t)
  {
    hide ReadEnds;
  }

  lemma ReadExplains(m: Scene, got: Option<Frame>, came: Option<ActivePoll>, t: Scene)
    requires ReadEnds(m, got, came, t) && came.Some? && m.peer.drv.phase.Active?
    requires m.peer.drv.pendingWrite.None? ==> m.peer.reg.owed == map[] && NothingQueued(m.peer.queues)
    requires got.Some? ==> t.peer.drv.phase.Active? || t.peer.drv.phase.HungUp? || t.peer.drv.phase.Panicked?
    ensures Explains(t.peer, if got.Some? then Incoming(t) else Incoming(m), came.value)
  {
    hide Does, Splits, NothingQueued, CannotGoOn, NoMoreNow, Io.Uses;
  }

  lemma PassedBy(s: Scene, ping: Option<int>, round: Round, m: Scene, came: Option<ActivePoll>, t: Scene)
    requires Went(s.(peer := Adopted(s.peer)), ping, round, m)
    requires Ended(m, round, came, t) || (t == m && if round.Moved? then came.None? else round.FlushFailed? && came == Some(Failed(Socket)))
    ensures Passed(s, ping, came, t)
  {
    hide Went, Adopted;
  }

  /** Run the driver until it has nothing to do, or has to leave the active state: `pings`
      says when a ping is due. It is a run of the peer model that reads exactly the frames
      taken off the input, the writer is given exactly what the peer sends, and the
      answers of the socket decide what it makes of it. */
  method PollActive(active: Connection, io: Io.Io, pings: seq<Option<int>>) returns (came: ActivePoll, ghost d: Drive)
    requires Linked(active, io) && active.phase.Active?
    requires forall i :: 0 <= i < |pings| && pings[i].Some? ==> 0 <= pings[i].value <= U32_MAX
    modifies active, io, io.socket
    ensures io.Valid() && Polled(old(SceneOf(active, io)), old(io.Input()), pings, d, came)
    ensures d.last == SceneOf(active, io) && Exact(old(io.intact), Torn(pings, d.scenes), old(io.overReported), io)
    ensures !came.Crashed? ==> Linked(active, io)
    ensures came.Waits? ==> io.Input() == d.rest
  {
    hide Accountable, Drove, NothingQueued, Passed, Passes, Traced, Explains, Tears, Torn, Io.WriteStateOk, Io.Unsent, C.EncodeAll, WellFormed;
    ghost var start, input := SceneOf(active, io), io.Input();
    ghost var steps: seq<Step>, scenes := [], [start];
    var turn := 0;
    DroveNothing(start.peer, input);
    PassesNothing(pings, start);
    while true
      invariant turn <= |pings| && Linked(active, io) && io.Valid() && active.phase.Active?
      invariant Drove(start.peer, input, steps, active.Snapshot(), io.Input()) && Exact(old(io.intact), Torn(pings, scenes), old(io.overReported), io)
      invariant scenes != [] && turn == (if |scenes| - 1 < |pings| then |scenes| - 1 else |pings|)
      invariant Passes(pings, scenes, start, SceneOf(active, io))
      decreases |io.Input()|, |io.socket.script|, WriterRank(io.writeState), |active.queues|, active.pendingWrite.None?
    {
      ghost var s, rest := SceneOf(active, io), io.Input();
      var ping := if turn < |pings| then pings[turn] else None;
      turn := if turn < |pings| then turn + 1 else turn;
      var stop;
      stop, d := OnePass(active, io, ping);
      DroveOn(start.peer, input, steps, s.peer, rest, d.steps, d.last.peer, d.rest);
      PassesOn(pings, scenes, start, s, stop, SceneOf(active, io));
      steps, scenes := steps + d.steps, scenes + [SceneOf(active, io)];
      if stop.Some? {
        return stop.value, d.(steps := steps, scenes := scenes);
      }
    }
  }

  lemma PassesNothing(pings: seq<Option<int>>, s: Scene)
    ensures Passes(pings, [s], s, s) && !Torn(pings, [s])
  {
  }

  /** The last pass of a poll turned to reading in the scene `m`. */
  ghost predicate TurnedToRead(pings: seq<Option<int>>, d: Drive, m: Scene) {
    && |d.scenes| >= 2
    && var s := d.scenes[|d.scenes| - 2];
       Went(s.(peer := Adopted(s.peer)), PingAt(pings, |d.scenes| - 2), Idle, m)
  }

  /** The last pass ended because the writer could not go on. */
  ghost predicate WriterFailed(pings: seq<Option<int>>, d: Drive) {
    && |d.scenes| >= 2
    && var s := d.scenes[|d.scenes| - 2];
       Went(s.(peer := Adopted(s.peer)), PingAt(pings, |d.scenes| - 2), FlushFailed, d.last)
  }

  /** The connection is closed if and only if the remote said goodbye in good order, or the
      input ended between two frames. It has failed only if the writer failed, the socket
      reported an error at the last attempt to read, or the input cannot be read on. */
  lemma PollEnds(s: Scene, input: seq<byte>, pings: seq<Option<int>>, d: Drive, came: ActivePoll)
    requires Polled(s, input, pings, d, came)
    ensures came == Failed(ConnectionClosed) <==>
              d.last.peer.drv.phase == HungUp(0) || exists m :: TurnedToRead(pings, d, m) && CleanEnd(m, d.last)
    ensures came == Failed(Socket) ==>
              || WriterFailed(pings, d)
              || exists m :: TurnedToRead(pings, d, m) && (Io.LastUsed(m.script, d.last.script) == Some(Io.Fault) || CannotGoOn(Incoming(m), m.ended))
  {
    hide Drove, Passes, Explains, CleanEnd, CannotGoOn, Adopted, Went, Ended, Io.LastUsed, Incoming;
    var last := d.scenes[|d.scenes| - 2];
    var ping := PingAt(pings, |d.scenes| - 2);
    var round, m :| Went(last.(peer := Adopted(last.peer)), ping, round, m) && Ended(m, round, Some(came), d.last);
    NotMoved(m, round, came, d.last);
    OneScene(last.(peer := Adopted(last.peer)), ping, round, m);
    if round.Idle? {
      assert TurnedToRead(pings, d, m);
      IdleEnds(m, came, d.last, d.rest);
    } else {
      FlushEnds(m, came, d.last, d.rest);
    }
  }

  /** A poll that waits has sent all that was staged and the ping that was due, unless the
      writer was waiting for the socket when the last pass began. */
  lemma PollWaits(s: Scene, input: seq<byte>, pings: seq<Option<int>>, d: Drive)
    requires Polled(s, input, pings, d, Waits)
    ensures var last := d.scenes[|d.scenes| - 2];
            || (Io.WriteStateOk(last.write) && Io.WriteOut(last.write, last.script).reply.NotYet?)
            || (Answers.Staged(d.last.peer.drv) == [] && (PingAt(pings, |d.scenes| - 2).Some? ==> d.last.peer.drv.awaitingPong.Some?))
  {
    hide Drove, Passes, Explains, Ended, Answers.Staged, Io.WriteOut, Servable, Starts, Serves;
    var last := d.scenes[|d.scenes| - 2];
    var ping := PingAt(pings, |d.scenes| - 2);
    var round, m :| Went(last.(peer := Adopted(last.peer)), ping, round, m) && Ended(m, round, Some(Waits), d.last);
    NotMoved(m, round, Waits, d.last);
    WaitingIsIdle(m, round, d.last);
    Answers.StagedInOrder(m.peer);
  }

  lemma WaitingIsIdle(m: Scene, round: Round, t: Scene)
    requires Ended(m, round, Some(Waits), t)
    ensures round.Idle? && t.peer == m.peer
  {
    hide CleanEnd, CannotGoOn, Io.LastUsed, Incoming, Splits, NoMoreNow, Does;
    if round.Idle? {
      var got :| ReadEnds(m, got, Some(Waits), t);
      if got.Some? { ReceivedPhase(m.peer, got.value, t.peer); }
    }
  }

  /** A frame leaves the peer active, hung up or panicked. */
  lemma ReceivedPhase(p: Peer, f: Frame, q: Peer)
    requires Does(p, Receiving(f), q)
    ensures q.drv.phase.Active? || q.drv.phase.HungUp? || q.drv.phase.Panicked?
  {
    hide OnFrame;
  }

  lemma NotMoved(m: Scene, round: Round, came: ActivePoll, t: Scene)
    requires Ended(m, round, Some(came), t)
    ensures !round.Moved?
  {
    hide ReadEnds;
  }

  lemma FlushEnds(m: Scene, came: ActivePoll, t: Scene, rest: seq<byte>)
    requires Ended(m, FlushFailed, Some(came), t) && Explains(t.peer, rest, came)
    ensures came == Failed(Socket) && t == m && t.peer.drv.phase.Active?
  {
  }

  lemma IdleEnds(m: Scene, came: ActivePoll, t: Scene, rest: seq<byte>)
    requires Ended(m, Idle, Some(came), t) && Explains(t.peer, rest, came)
    ensures came == Failed(ConnectionClosed) <==> t.peer.drv.phase == HungUp(0) || CleanEnd(m, t)
    ensures came == Failed(Socket) ==> Io.LastUsed(m.script, t.script) == Some(Io.Fault) || CannotGoOn(Incoming(m), m.ended)
  {
    var got :| ReadEnds(m, got, Some(came), t);
    hide CannotGoOn, Adopted, Does, NoMoreNow, NothingQueued, Io.Uses, Io.LastUsed;
    if got.Some? {
      NotNothing(Incoming(m), got.value, Incoming(t));
      hide Splits;
    }
  }

  lemma NotNothing(input: seq<byte>, f: Frame, rest: seq<byte>)
    requires Splits(input, [f], rest)
    ensures input != []
  {
    assert [f][0] == f && [f][1..] == [];
    assert |C.EncodeAll([f])| >= HEADER_SIZE;
  }

  /** A pass that does not move has one outcome. */
  lemma OneScene(s: Scene, ping: Option<int>, round: Round, m: Scene)
    requires Went(s, ping, round, m) && !round.Moved?
    ensures forall other, n :: Went(s, ping, other, n) ==> other == round && n == m
  {
    hide Io.WriteOut, Sends, Servable, Starts, Serves;
  }
}
