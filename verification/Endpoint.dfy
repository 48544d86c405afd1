/** One end of a connection as an object: the registry, the handle calls and the
    driver, written as the code runs them (mux/mux/src/connection/active.rs and
    stream.rs). Every method is shown to be the step of the peer model that it stands
    for, so what is proved of the model holds of these objects. */
module Endpoint {
  import opened Basics
  import opened Frames
  import opened StreamModel
  import opened PeerModel
  import opened PeerInvariants
  import PeerRuns
  import opened PeerClosing

  function Stopped(sh: Shared): Shared { WakeBoth(Mark(sh, LeftActive)) }

  /** Every record is registered under an id, and every id has a record. */
  lemma AllRegistered(p: Peer)
    requires Inv(p)
    ensures p.reg.streams.Values + p.reg.inactive.Values == p.reg.heap.Keys
  {
    hide RecordsOk, HandlesOk, QueuesOk, NoLeak, SlotsOk, WaitersInactive, WaitersOpened, BudgetOk, FinsTold;
    var reg := p.reg;
    forall r | r in reg.heap ensures r in reg.streams.Values + reg.inactive.Values {
      assert RegisteredAs(reg, reg.heap[r].owner, r);
    }
    forall r | r in reg.streams.Values ensures r in reg.heap {
      var id :| id in reg.streams && reg.streams[id] == r;
    }
    forall r | r in reg.inactive.Values ensures r in reg.heap {
      var id :| id in reg.inactive && reg.inactive[id] == r;
    }
  }

  lemma AllStopped(reg: Registry, heap: map<Ref, Shared>)
    requires heap.Keys == reg.heap.Keys && forall r :: r in reg.heap ==> heap[r] == Stopped(reg.heap[r])
    ensures reg.(heap := heap, slotWaiters := {}) == StopReceiving(reg)
  {
    assert heap == map r | r in reg.heap :: WakeBoth(Mark(reg.heap[r], LeftActive));
  }

  /** The step leads from one state to the other. */
  ghost predicate Does(p: Peer, step: Step, q: Peer) { Enabled(p, step) && q == Apply(p, step).peer }

  lemma InvRegistry(p: Peer)
    requires Inv(p)
    ensures RegistryInHeap(p.reg)
  {
    hide RecordsOk, HandlesOk, NoLeak, SlotsOk, WaitersInactive, WaitersOpened, FinsTold, BudgetOk, QueuesOk;
  }

  /** A step that sends nothing leaves the history of sent frames alone. */
  lemma ActsDoes(p: Peer, step: Step, q: Peer)
    requires Enabled(p, step) && Act(p, step) == Emission(q, None)
    ensures Does(p, step, q)
  {
    hide Act, Enabled;
    assert q.hist.sent + [] == q.hist.sent;
  }

  lemma SameKeys(p: Peer, h: HandleId)
    requires h in p.queues && |p.queues[h].cmds| > 0
    ensures var q := PeerModel.TakeCommand(p, h);
            |q.queues| == |p.queues| && q.drv == p.drv.(pendingWrite := q.drv.pendingWrite) && q.drv.pendingWrite.Some? && q.hist == p.hist
  {
    assert PeerModel.TakeCommand(p, h).queues.Keys == p.queues.Keys;
  }

  lemma FewerQueues(p: Peer, h: HandleId)
    requires RegistryInHeap(p.reg) && h in p.queues
    ensures var q := PeerModel.OnDropStream(p, h);
            |q.queues| < |p.queues| && q.drv == p.drv && q.hist.sent == p.hist.sent
  {
    hide ReapActive, ReapInactive, HeldByHandle;
    var left := p.queues - {h};
    assert p.queues.Keys == left.Keys + {h};
    assert |p.queues| == |p.queues.Keys| && |left| == |left.Keys|;
  }

  lemma AdoptDoes(p: Peer, h: HandleId, q: Peer)
    requires Inv(p) && p.drv.phase.Active? && h in p.queues && q == Adopt(p, h)
    ensures Does(p, Adopting(h), q) && Inv(q) && q.queues.Keys == p.queues.Keys
  {
    hide Inv;
    InvRegistry(p);
    ActsDoes(p, Adopting(h), q);
    PeerRuns.AdoptingKeeps(p, h);
  }

  lemma ReceiveKeepsQueues(p: Peer, f: Frame)
    requires RegistryInHeap(p.reg)
    ensures var q := PeerModel.Receive(p, f);
            && q.queues == p.queues && q.drv.pendingWrite == p.drv.pendingWrite && q.hist == p.hist
            && (p.drv.phase.Active? ==> q.drv.phase.Active? || q.drv.phase.HungUp? || q.drv.phase.Panicked?)
  {
    hide PeerModel.OnFrame;
  }

  lemma {:induction false} RunSnoc(p: Peer, steps: seq<Step>, q: Peer, step: Step, r: Peer)
    requires PeerRuns.Run(p, steps, q) && Does(q, step, r)
    ensures PeerRuns.Run(p, steps + [step], r)
    decreases |steps|
  {
    hide Enabled, Apply;
    if steps == [] {
      assert [step][1..] == [];
    } else {
      assert (steps + [step])[1..] == steps[1..] + [step];
      RunSnoc(Apply(p, steps[0]).peer, steps[1..], q, step, r);
    }
  }

  lemma {:induction false} RunConcat(p: Peer, one: seq<Step>, q: Peer, two: seq<Step>, r: Peer)
    requires PeerRuns.Run(p, one, q) && PeerRuns.Run(q, two, r)
    ensures PeerRuns.Run(p, one + two, r)
    decreases |one|
  {
    hide Enabled, Apply;
    if one == [] {
      assert one + two == two;
    } else {
      assert (one + two)[1..] == one[1..] + two;
      RunConcat(Apply(p, one[0]).peer, one[1..], q, two, r);
    }
  }

  function Receipt(step: Step): seq<Frame> { if step.Receiving? then [step.f] else [] }

  /** The frames that a run reads. */
  function Receipts(steps: seq<Step>): seq<Frame> {
    if steps == [] then [] else Receipt(steps[0]) + Receipts(steps[1..])
  }

  lemma {:induction false} ReceiptsSnoc(steps: seq<Step>, step: Step)
    ensures Receipts(steps + [step]) == Receipts(steps) + Receipt(step)
  {
    hide Receipt;
    if steps == [] {
      assert [step][1..] == [];
      assert steps + [step] == [step];
    } else {
      assert (steps + [step])[1..] == steps[1..] + [step];
      ReceiptsSnoc(steps[1..], step);
      assert Receipt(steps[0]) + (Receipts(steps[1..]) + Receipt(step)) == (Receipt(steps[0]) + Receipts(steps[1..])) + Receipt(step);
    }
  }

  lemma {:induction false} ReceiptsConcat(a: seq<Step>, b: seq<Step>)
    ensures Receipts(a + b) == Receipts(a) + Receipts(b)
  {
    hide Receipt;
    if a == [] {
      assert a + b == b;
    } else {
      assert (a + b)[1..] == a[1..] + b;
      ReceiptsConcat(a[1..], b);
      assert Receipt(a[0]) + (Receipts(a[1..]) + Receipts(b)) == (Receipt(a[0]) + Receipts(a[1..])) + Receipts(b);
    }
  }

  /** What the driver does, as opposed to handle calls and the close. */
  predicate Driven(s: Step) {
    s.Adopting? || s.Pinging? || s.Emitting? || s.FlushingOwed? || s.Taking? || s.Reaping? || s.Receiving?
  }

  /** No command and no end of a queue waits to be served. */
  predicate NothingQueued(queues: map<HandleId, Queue>) {
    forall h :: h in queues ==> queues[h].adopted && queues[h].cmds == [] && queues[h].senderAlive
  }

  /** What a peer gives to a writer that takes a frame: a ping that is due, or the next frame. */
  function Sends(p: Peer, ping: Option<int>): Option<(Step, Frame)> {
    if ping.Some? && p.drv.awaitingPong.None? then Some((Pinging(ping.value), PingFrame(ping.value)))
    else
      match PeerModel.Emit(p).frame
      case Some(f) => Some((Emitting, f))
      case None => None
  }

  /** All channels are adopted. */
  function Adopted(p: Peer): Peer { p.(queues := map h | h in p.queues :: p.queues[h].(adopted := true)) }

  lemma {:induction false} AdoptionsMean(p: Peer, steps: seq<Step>, q: Peer)
    requires PeerRuns.Run(p, steps, q) && forall i :: 0 <= i < |steps| ==> steps[i].Adopting?
    ensures Adopted(q) == Adopted(p)
    decreases |steps|
  {
    hide Adopted;
    if steps != [] {
      AdoptsOne(p, steps[0]);
      AdoptionsMean(Apply(p, steps[0]).peer, steps[1..], q);
    }
  }

  lemma AdoptsOne(p: Peer, step: Step)
    requires Enabled(p, step) && step.Adopting?
    ensures Adopted(Apply(p, step).peer) == Adopted(p)
  {
    var q := Adopt(p, step.h);
    assert q.hist.sent + [] == p.hist.sent;
    assert Adopted(q).queues == Adopted(p).queues;
  }

  lemma AllAdopted(p: Peer)
    requires forall h :: h in p.queues ==> p.queues[h].adopted
    ensures Adopted(p) == p
  {
    assert Adopted(p).queues == p.queues;
  }

  /** Something is owed or queued, and nothing is staged before it. */
  predicate Servable(p: Peer) { p.drv.pendingWrite.None? && (p.reg.owed != map[] || !NothingQueued(p.queues)) }

  lemma ServedWasServable(p: Peer, step: Step, q: Peer)
    requires Does(p, step, q) && (step.FlushingOwed? || step.Taking? || step.Reaping?)
    ensures Servable(p)
  {
  }

  /** What reaping an id does, once no handle of it is alive. */
  ghost function Reaped(p: Peer, id: StreamId): Peer
    requires RegistryInHeap(p.reg)
  {
    if id in p.reg.streams then p.(reg := ReapActive(p.reg, id), hist := p.hist.(reaped := p.hist.reaped + {id}))
    else if id in p.reg.inactive then p.(reg := ReapInactive(p.reg, id))
    else p
  }

  lemma DropIsReap(p: Peer, h: HandleId)
    requires RegistryInHeap(p.reg)
    ensures var q := p.(queues := p.queues - {h});
            var alive := (h.id in p.reg.streams && HeldByHandle(p.handles, p.reg.streams[h.id]))
                         || (h.id in p.reg.inactive && HeldByHandle(p.handles, p.reg.inactive[h.id]));
            PeerModel.OnDropStream(p, h) == if alive then q else Reaped(q, h.id)
  {
    hide ReapActive, ReapInactive, HeldByHandle;
  }

  lemma ActivatedIsUsable(p: Peer, h: HandleId)
    requires Usable(p, h)
    ensures Usable(PeerModel.PollActivate(p, h).peer, h)
  {
  }

  lemma GrantedIsUsable(p: Peer, h: HandleId, fast: bool)
    requires Usable(p, h)
    ensures Usable(PeerModel.SendWindowUpdate(p, h, fast), h)
  {
    hide NextGrant;
  }

  lemma AllEnded(reg: Registry, heap: map<Ref, Shared>)
    requires heap.Keys == reg.heap.Keys && forall r :: r in reg.heap ==> heap[r] == Ended(reg.heap[r])
    ensures heap == map r | r in reg.heap :: Ended(reg.heap[r])
  {
  }

  class Connection {
    const cfg: Config
    // the registry
    var heap: map<Ref, Shared>
    var nextRef: nat
    var streams: map<StreamId, Ref>
    var inactive: map<StreamId, Ref>
    var owed: map<StreamId, Frame>
    var slotWaiters: set<HandleId>
    var accumulated: int
    // the handles and their command channels
    var handles: map<HandleId, Ref>
    var queues: map<HandleId, Queue>
    // the driver
    var phase: Phase
    var awaitingPong: Option<int>
    var pendingPong: Option<int>
    var pendingTerminate: Option<Frame>
    var terminating: bool
    var pendingWrite: Option<Frame>
    var backlog: seq<Frame>
    ghost var hist: History

    ghost function Reg(): Registry reads this {
      Registry(cfg, heap, nextRef, streams, inactive, owed, slotWaiters, accumulated)
    }

    ghost function Drv(): Driver reads this {
      Driver(phase, awaitingPong, pendingPong, pendingTerminate, terminating, pendingWrite, backlog)
    }

    /** The state of the object as a value of the model. */
    ghost function Snapshot(): Peer reads this { Peer(Reg(), handles, queues, Drv(), hist) }

    constructor (cfg: Config)
      ensures this.cfg == cfg && Snapshot() == NewPeer(cfg)
    {
      this.cfg := cfg;
      heap, nextRef, streams, inactive, owed, slotWaiters, accumulated := map[], 0, map[], map[], map[], {}, 0;
      handles, queues := map[], map[];
      phase, awaitingPong, pendingPong, pendingTerminate, terminating, pendingWrite, backlog :=
        Active, None, None, None, false, None, [];
      hist := History([], {}, {}, {}, map[], map[]);
    }

    predicate SenderClosed() reads this { phase.Draining? || phase.Flushing? }

    /** The command channel has no room: its sender would have to wait. */
    predicate SenderFull(h: HandleId)
      reads this
      requires h in queues
    {
      |queues[h].cmds| > QUEUE_BUFFER
    }

    /** `start_send` on the command channel of a handle. */
    method StartSend(h: HandleId, c: Command)
      requires h in queues
      modifies this`queues
      ensures queues == old(queues)[h := old(queues)[h].(cmds := old(queues)[h].cmds + [c])]
    {
      queues := queues[h := queues[h].(cmds := queues[h].cmds + [c])];
    }

    // ----- handle calls -----

    method Lookup(id: StreamId) returns (r: Option<Ref>)
      ensures r == RefOf(Reg(), id)
    {
      if id in streams { return Some(streams[id]); }
      if id in inactive { return Some(inactive[id]); }
      r := None;
    }

    method AttachRecord(id: StreamId, r: Ref)
      modifies this`heap, this`nextRef, this`inactive
      ensures Reg() == Attach(old(Reg()), id, r)
    {
      if r in heap {
        heap := heap[r := heap[r].(claimed := true)];
      } else {
        heap := heap[r := Fresh(id).(claimed := true)];
        nextRef := nextRef + 1;
        inactive := inactive[id := r];
      }
    }

    /** Use the record that the id already has, or make an inactive one. */
    method NewStream(h: HandleId)
      requires CanOpen(Snapshot(), h)
      modifies this
      ensures Snapshot() == PeerModel.NewStream(old(Snapshot()), h)
    {
      hide Attach, RefOf;
      var known := Lookup(h.id);
      var r := if known.Some? then known.value else nextRef;
      AttachRecord(h.id, r);
      handles := handles[h := r];
      queues := queues[h := Queue([], false, true)];
      hist := hist.(everOpened := hist.everOpened + {h});
    }

    /** Move an inactive record to the active streams; its first frame will say SYN. */
    method ClaimSlot(id: StreamId, r: Ref) returns (ok: bool)
      requires r in heap
      modifies this`streams, this`inactive, this`heap
      ensures var claimed := TryClaimSlot(old(Reg()), id, r);
              ok == claimed.Some? && Reg() == if ok then claimed.value else old(Reg())
    {
      if |streams| + |owed| >= cfg.maxStreams { return false; }
      inactive := inactive - {id};
      streams := streams[id := r];
      heap := heap[r := heap[r].(activated := true, synPending := true)];
      ok := true;
    }

    method AdoptActive(h: HandleId)
      requires h.id in streams && streams[h.id] in heap
      modifies this`inactive, this`heap, this`handles
      ensures handles == old(handles)[h := streams[h.id]]
      ensures Reg() == var reg := old(Reg());
                       SetShared(reg.(inactive := reg.inactive - {h.id}), reg.streams[h.id], reg.heap[reg.streams[h.id]].(activated := true))
    {
      inactive := inactive - {h.id};
      heap := heap[streams[h.id] := heap[streams[h.id]].(activated := true)];
      handles := handles[h := streams[h.id]];
    }

    method PollActivate(h: HandleId) returns (reply: Reply)
      requires Usable(Snapshot(), h)
      modifies this
      ensures Called(Snapshot(), reply) == PeerModel.PollActivate(old(Snapshot()), h)
    {
      hide TryClaimSlot, SetShared;
      var r := handles[h];
      if heap[r].activated { return Done; }
      if h.id in streams && streams[h.id] in heap {
        AdoptActive(h);
        return Done;
      }
      var ok := ClaimSlot(h.id, r);
      if ok { return Done; }
      if SenderClosed() { return Done; }
      slotWaiters := slotWaiters + {h};
      reply := Parked;
    }

    /** Claim a slot, then send as much as credit and the split size allow. */
    method PollWrite(h: HandleId, data: seq<byte>) returns (reply: Reply)
      requires Usable(Snapshot(), h)
      modifies this
      ensures Called(Snapshot(), reply) == PeerModel.PollWrite(old(Snapshot()), h, data)
    {
      hide TryClaimSlot;
      ghost var p := Snapshot();
      var act := PollActivate(h);
      if act.Parked? { return Parked; }
      ActivatedIsUsable(p, h);
      hide PeerModel.PollActivate;
      reply := WriteNow(h, data);
    }

    /** Replace a live record. */
    method SetRecord(r: Ref, sh: Shared)
      requires r in heap
      modifies this`heap
      ensures Reg() == SetShared(old(Reg()), r, sh)
    {
      heap := heap[r := sh];
    }

    method WriteNow(h: HandleId, data: seq<byte>) returns (reply: Reply)
      requires Usable(Snapshot(), h)
      modifies this
      ensures Called(Snapshot(), reply) == SendData(old(Snapshot()), h, data)
    {
      hide SetShared, Portion, Log;
      if SenderClosed() { return WriteZero; }
      if SenderFull(h) { return Parked; }
      var r := handles[h];
      var sh := heap[r];
      if !CanWrite(sh.state) { return WriteZero; }
      if sh.send == 0 {
        SetRecord(r, sh.(writer := true));
        return Parked;
      }
      var k := Portion(cfg, sh.send, |data|);
      var body := if 0 <= k <= |data| then data[..k] else [];
      SetRecord(r, sh.(send := sh.send - k, synPending := false));
      StartSend(h, SendFrame(DataFrame(h.id, body, sh.synPending)));
      hist := hist.(written := hist.written[h.id := Log(hist.written, h.id) + body]);
      reply := Wrote(k);
    }

    method SendWindowUpdate(h: HandleId, fast: bool)
      requires Usable(Snapshot(), h)
      modifies this
      ensures Snapshot() == PeerModel.SendWindowUpdate(old(Snapshot()), h, fast)
    {
      hide NextGrant;
      var r := handles[h];
      if !CanRead(heap[r].state) { return; }
      if SenderClosed() || SenderFull(h) { return; }
      var grant := NextGrant(cfg, accumulated, heap[r], fast);
      if grant.None? { return; }
      accumulated := accumulated + (grant.value.newMax - heap[r].maxRecv);
      heap := heap[r := Granted(heap[r], grant.value)];
      StartSend(h, SendFrame(CreditFrame(h.id, grant.value.credit)));
    }

    /** Grant credit if it is time, then read from the buffer. */
    method PollRead(h: HandleId, n: nat, fast: bool) returns (reply: Reply)
      requires Usable(Snapshot(), h)
      modifies this
      ensures Called(Snapshot(), reply) == PeerModel.PollRead(old(Snapshot()), h, n, fast)
    {
      ghost var p := Snapshot();
      var room := !SenderClosed() && !SenderFull(h);
      SendWindowUpdate(h, fast);
      GrantedIsUsable(p, h, fast);
      hide PeerModel.SendWindowUpdate;
      reply := ReadNow(h, n, room);
    }

    method ReadNow(h: HandleId, n: nat, room: bool) returns (reply: Reply)
      requires Usable(Snapshot(), h)
      modifies this
      ensures Called(Snapshot(), reply) == ReadBuffer(old(Snapshot()), h, n, room)
    {
      var r := handles[h];
      var k := Min(n, |heap[r].buffer|);
      if k > 0 {
        var got := heap[r].buffer[..k];
        heap := heap[r := heap[r].(buffer := heap[r].buffer[k..])];
        hist := hist.(read := hist.read[h.id := Log(hist.read, h.id) + got]);
        return Got(got);
      }
      if !cfg.readAfterClose && SenderClosed() { return Eof; }
      if !CanRead(heap[r].state) { return Eof; }
      Park(r, n == 0, room);
      reply := Reply.Parked;
    }

    /** Store the reader's waker, and why it waits. */
    method Park(r: Ref, nothing: bool, room: bool)
      requires r in heap
      modifies this`heap
      ensures heap == old(heap)[r := old(heap)[r].(reader := true, readNothing := nothing, readRoom := room)]
    {
      heap := heap[r := heap[r].(reader := true, readNothing := nothing, readRoom := room)];
    }

    method PollClose(h: HandleId) returns (reply: Reply)
      requires Usable(Snapshot(), h)
      modifies this
      ensures Called(Snapshot(), reply) == PeerModel.PollClose(old(Snapshot()), h)
    {
      hide SetShared, Mark;
      var r := handles[h];
      var sh := heap[r];
      if sh.state.Closed? { return Done; }
      if !sh.activated {
        SetRecord(r, Mark(sh, InactiveClose));
        hist := hist.(early := hist.early + {h.id});
        return Done;
      }
      if SenderClosed() { return WriteZero; }
      if SenderFull(h) { return Parked; }
      StartSend(h, CloseStream(h.id));
      SetRecord(r, Mark(sh, LocalFin));
      reply := Done;
    }

    /** Dropping a handle lets go of its record, and only then of its sender. */
    method DropRecord(h: HandleId)
      modifies this`handles
      ensures Snapshot() == Release(old(Snapshot()), h)
    {
      handles := handles - {h};
    }

    method DropSender(h: HandleId)
      requires h in queues
      modifies this`queues
      ensures Snapshot() == Hangup(old(Snapshot()), h)
    {
      queues := queues[h := queues[h].(senderAlive := false)];
    }

    // ----- the driver -----

    /** `strong_count` above one: some handle holds the record besides the registry. */
    method Held(r: Ref) returns (held: bool)
      ensures held <==> HeldByHandle(handles, r)
    {
      held := false;
      var left := handles.Keys;
      while left != {} && !held
        invariant left <= handles.Keys && (held ==> HeldByHandle(handles, r))
        invariant !held ==> forall h :: h in handles && h !in left ==> handles[h] != r
        decreases |left|, !held
      {
        var h: HandleId :| h in left;
        if handles[h] == r { held := true; }
        left := left - {h};
      }
    }

    method FreeInactive(id: StreamId)
      requires id in inactive && inactive[id] in heap
      modifies this`heap, this`inactive, this`accumulated
      ensures Reg() == ReapInactive(old(Reg()), id)
    {
      var r := inactive[id];
      inactive := inactive - {id};
      accumulated := accumulated - (heap[r].maxRecv - DEFAULT_CREDIT);
      heap := heap - {r};
    }

    /** Take an active stream out of the registry and stage the close frame that its
        state owes, or free the slot at once. */
    method FreeActive(id: StreamId)
      requires id in streams && streams[id] in heap
      modifies this`heap, this`streams, this`accumulated, this`owed, this`slotWaiters
      ensures Reg() == ReapActive(old(Reg()), id)
    {
      var r := streams[id];
      streams := streams - {id};
      var frame := None;
      match heap[r].state {
        case Open => frame := Some(RstFrame(id));
        case RecvClosed => frame := Some(FinFrame(id));
        case SendClosed =>
        case Closed =>
      }
      accumulated := accumulated - (heap[r].maxRecv - DEFAULT_CREDIT);
      heap := heap - {r};
      match frame
      case Some(f) => owed := owed[id := f];
      case None => slotWaiters := {};
    }

    /** A sibling handle is alive: then the stream stays as it is. */
    method SiblingAlive(id: StreamId) returns (alive: bool)
      ensures alive <==> || (id in streams && HeldByHandle(handles, streams[id]))
                         || (id in inactive && HeldByHandle(handles, inactive[id]))
    {
      hide HeldByHandle;
      alive := false;
      if id in streams { alive := Held(streams[id]); }
      if !alive && id in inactive { alive := Held(inactive[id]); }
    }

    method Reap(id: StreamId)
      requires RegistryInHeap(Reg())
      modifies this
      ensures Snapshot() == Reaped(old(Snapshot()), id)
    {
      hide ReapActive, ReapInactive;
      if id in streams {
        FreeActive(id);
        hist := hist.(reaped := hist.reaped + {id});
      } else if id in inactive {
        FreeInactive(id);
      }
    }

    method OnDropStream(h: HandleId)
      requires RegistryInHeap(Reg())
      modifies this
      ensures Snapshot() == PeerModel.OnDropStream(old(Snapshot()), h)
    {
      hide ReapActive, ReapInactive, HeldByHandle, Reaped;
      ghost var p := Snapshot();
      queues := queues - {h};
      var alive := SiblingAlive(h.id);
      DropIsReap(p, h);
      if !alive { Reap(h.id); }
    }

    method HandlePeerReset(id: StreamId)
      modifies this`heap
      ensures Reg() == PeerReset(old(Reg()), id)
    {
      if id !in streams || streams[id] !in heap { return; }
      var sh := Mark(heap[streams[id]], RemoteRst);
      sh := sh.(reader := false);
      sh := sh.(writer := false);
      heap := heap[streams[id] := sh];
    }

    /** Promote the local inactive record, or make a new active one. */
    method AdmitStream(id: StreamId)
      requires RegistryInHeap(Reg())
      modifies this`heap, this`nextRef, this`streams, this`inactive
      ensures Reg() == Admit(old(Reg()), id)
    {
      if id in inactive && inactive[id] in heap {
        var r := inactive[id];
        inactive := inactive - {id};
        heap := heap[r := heap[r].(activated := true)];
        streams := streams[id := r];
      } else {
        heap := heap[nextRef := Fresh(id).(activated := true)];
        streams := streams[id := nextRef];
        nextRef := nextRef + 1;
      }
    }

    method DeliverData(f: Frame) returns (a: Action)
      requires f.header.id in streams && streams[f.header.id] in heap
      modifies this`heap
      ensures Handled(Reg(), a) == Deliver(old(Reg()), f)
      ensures var r := streams[f.header.id]; heap[r].recv + |heap[r].buffer| == old(heap)[r].recv + |old(heap)[r].buffer|
    {
      var r := streams[f.header.id];
      var sh := heap[r];
      if |f.body| > sh.recv { return Terminate; }
      if f.header.flags.fin { sh := Mark(sh, RemoteFin); }
      sh := sh.(recv := sh.recv - |f.body|);
      sh := sh.(buffer := sh.buffer + f.body);
      sh := sh.(reader := false);
      heap := heap[r := sh];
      a := Continue;
    }

    method OnData(f: Frame) returns (a: Action)
      requires RegistryInHeap(Reg())
      modifies this`heap, this`nextRef, this`streams, this`inactive
      ensures Handled(Reg(), a) == PeerModel.OnData(old(Reg()), f)
    {
      hide PeerReset, Admit, Deliver;
      var id := f.header.id;
      if f.header.flags.rst {
        HandlePeerReset(id);
        return Continue;
      }
      if id == SESSION { return Terminate; }
      if id !in streams {
        if !f.header.flags.syn { return Continue; }
        if |f.body| > DEFAULT_CREDIT { return Terminate; }
        if |streams| >= cfg.maxStreams { return Terminate; }
        AdmittedIsThere(Reg(), id);
        AdmitStream(id);
      }
      a := DeliverData(f);
    }

    method OnWindowUpdate(f: Frame) returns (a: Action)
      requires RegistryInHeap(Reg())
      modifies this`heap
      ensures Handled(Reg(), a) == PeerModel.OnWindowUpdate(old(Reg()), f)
    {
      var id := f.header.id;
      if id !in streams { return Continue; }
      var r := streams[id];
      var sh := heap[r];
      if sh.send + f.header.length > U32_MAX { return Panic; }
      sh := sh.(send := sh.send + f.header.length);
      sh := sh.(writer := false);
      heap := heap[r := sh];
      a := Continue;
    }

    method OnPing(f: Frame) returns (a: Action)
      ensures a == PeerModel.OnPing(Snapshot(), f)
    {
      if f.header.flags.ack {
        return if awaitingPong == Some(f.header.length) then Answered else Terminate;
      }
      if f.header.id == SESSION || f.header.id in streams { return Pong(f.header.length); }
      a := Continue;
    }

    method OnFrame(f: Frame) returns (a: Action)
      requires RegistryInHeap(Reg())
      modifies this`heap, this`nextRef, this`streams, this`inactive
      ensures Handled(Reg(), a) == PeerModel.OnFrame(old(Snapshot()), f)
    {
      hide PeerModel.OnData, PeerModel.OnWindowUpdate, PeerModel.OnPing;
      if terminating { return Continue; }
      match f.header.tag
      case Data => a := OnData(f);
      case WindowUpdate => a := OnWindowUpdate(f);
      case Ping => a := OnPing(f);
      case GoAway => a := Leave(f.header.length);
    }

    /** Read one frame off the socket and note what it asks for. */
    method Receive(f: Frame)
      requires RegistryInHeap(Reg())
      modifies this
      ensures Snapshot() == PeerModel.Receive(old(Snapshot()), f)
    {
      hide PeerModel.OnFrame;
      var a := OnFrame(f);
      match a
      case Continue =>
      case Pong(nonce) => pendingPong := Some(nonce);
      case Answered => awaitingPong := None;
      case Leave(code) => phase := HungUp(code);
      case Terminate => terminating, pendingTerminate := true, Some(PROTOCOL_ERROR);
      case Panic => phase := Panicked;
    }

    /** Put the next frame on a writable socket: a termination, a pong, a stream frame. */
    method Emit() returns (frame: Option<Frame>)
      modifies this
      ensures Emission(Snapshot(), frame) == PeerModel.Emit(old(Snapshot()))
    {
      if pendingTerminate.Some? {
        frame := pendingTerminate;
        pendingTerminate := None;
        return;
      }
      if pendingPong.Some? {
        frame := Some(PongFrame(pendingPong.value));
        pendingPong := None;
        return;
      }
      if pendingWrite.Some? {
        frame := pendingWrite;
        pendingWrite := None;
        return;
      }
      frame := None;
    }

    method FlushOwed(id: StreamId)
      requires id in owed
      modifies this
      ensures Snapshot() == PeerModel.FlushOwed(old(Snapshot()), id)
    {
      var frame := owed[id];
      owed := owed - {id};
      slotWaiters := {};
      pendingWrite := Some(frame);
    }

    method TakeCommand(h: HandleId)
      requires h in queues && |queues[h].cmds| > 0
      modifies this
      ensures Snapshot() == PeerModel.TakeCommand(old(Snapshot()), h)
    {
      var c := queues[h].cmds[0];
      queues := queues[h := queues[h].(cmds := queues[h].cmds[1..])];
      pendingWrite := Some(CommandFrame(c));
    }

    method AdoptQueue(h: HandleId)
      requires h in queues
      modifies this
      ensures Snapshot() == Adopt(old(Snapshot()), h)
    {
      queues := queues[h := queues[h].(adopted := true)];
    }

    // ----- leaving the active state -----

    /** Mark every registered stream as receiving no more, and wake whoever is parked. */
    method StopStreams()
      requires Inv(Snapshot())
      modifies this`heap, this`slotWaiters
      ensures Reg() == StopReceiving(old(Reg()))
    {
      hide Inv, Stopped, StopReceiving, RegistryOk;
      var left: set<Ref> := streams.Values + inactive.Values;
      AllRegistered(Snapshot());
      ghost var was := heap;
      while left != {}
        invariant left <= was.Keys == heap.Keys
        invariant forall r :: r in was ==> heap[r] == if r in left then was[r] else Stopped(was[r])
        decreases left
      {
        var r: Ref :| r in left;
        heap := heap[r := Stopped(heap[r])];
        left := left - {r};
      }
      slotWaiters := {};
      AllStopped(old(Reg()), heap);
    }

    /** Adopt and shut every command channel. */
    method ShutChannels()
      modifies this`queues
      ensures queues == map h | h in old(queues) :: old(queues)[h].(adopted := true)
    {
      var left := queues.Keys;
      while left != {}
        invariant left <= old(queues).Keys == queues.Keys
        invariant forall h :: h in old(queues) ==> queues[h] == if h in left then old(queues)[h] else old(queues)[h].(adopted := true)
        decreases left
      {
        var h: HandleId :| h in left;
        queues := queues[h := queues[h].(adopted := true)];
        left := left - {h};
      }
      assert queues == map h | h in old(queues) :: old(queues)[h].(adopted := true);
    }

    /** What still has to be sent, in the order of sending: a termination, a pong, the
        outbound frame, and the close frames that are owed. */
    method TakePendingFrames(order: seq<StreamId>) returns (frames: seq<Frame>)
      requires KeyOrder(owed, order)
      ensures frames == OptFrame(pendingTerminate) + OptPong(pendingPong) + OptFrame(pendingWrite) + OwedFrames(owed, order)
    {
      frames := OptFrame(pendingTerminate) + OptPong(pendingPong) + OptFrame(pendingWrite);
      ghost var before := frames;
      for k := 0 to |order|
        invariant frames + OwedFrames(owed, order[k..]) == before + OwedFrames(owed, order)
      {
        assert order[k..][0] == order[k] && order[k..][1..] == order[k + 1..];
        assert frames + ([owed[order[k]]] + OwedFrames(owed, order[k + 1..])) == (frames + [owed[order[k]]]) + OwedFrames(owed, order[k + 1..]);
        frames := frames + [owed[order[k]]];
      }
      assert order[|order|..] == [];
    }

    /** `close`: the driver stops, and the backlog goes to the closing future. */
    method Close(order: seq<StreamId>)
      requires Inv(Snapshot()) && KeyOrder(owed, order)
      modifies this
      ensures Snapshot() == BeginClose(old(Snapshot()), order)
    {
      hide Inv, StopReceiving, KeyOrder, OwedFrames;
      var frames := TakePendingFrames(order);
      StopStreams();
      ShutChannels();
      phase, pendingTerminate, pendingPong, pendingWrite, backlog := Draining, None, None, None, frames;
    }

    /** Close every registered stream and forget it, and wake whoever is parked. */
    method EndStreams()
      requires streams.Values + inactive.Values == heap.Keys
      modifies this`heap, this`streams, this`inactive, this`slotWaiters
      ensures Reg() == old(Reg()).(streams := map[], inactive := map[], slotWaiters := {},
                                   heap := map r | r in old(heap) :: Ended(old(heap)[r]))
    {
      hide Ended;
      var left: set<Ref> := streams.Values + inactive.Values;
      while left != {}
        invariant left <= old(heap).Keys == heap.Keys
        invariant forall r :: r in old(heap) ==> heap[r] == if r in left then old(heap)[r] else Ended(old(heap)[r])
        decreases left
      {
        var r: Ref :| r in left;
        heap := heap[r := Ended(heap[r])];
        left := left - {r};
      }
      AllEnded(old(Reg()), heap);
      streams, inactive, slotWaiters := map[], map[], {};
    }

    /** After an error the command channels are shut first, so that nobody parks again. */
    method DropAllStreams()
      requires Inv(Snapshot())
      modifies this
      ensures Snapshot() == Abandon(old(Snapshot()))
    {
      hide Inv, Ended;
      AllRegistered(Snapshot());
      ShutChannels();
      EndStreams();
      phase := Draining;
    }

    /** The commands that are left in the channels are thrown away. */
    method DiscardCommands()
      modifies this`queues
      ensures queues == map h | h in old(queues) :: old(queues)[h].(cmds := [])
    {
      var left := queues.Keys;
      while left != {}
        invariant left <= old(queues).Keys == queues.Keys
        invariant forall h :: h in old(queues) ==> queues[h] == if h in left then old(queues)[h] else old(queues)[h].(cmds := [])
        decreases left
      {
        var h: HandleId :| h in left;
        queues := queues[h := queues[h].(cmds := [])];
        left := left - {h};
      }
      assert queues == map h | h in old(queues) :: old(queues)[h].(cmds := []);
    }

    // ----- one round of the driver -----

    method SendPing(n: int)
      requires Inv(Snapshot()) && phase.Active? && awaitingPong.None? && 0 <= n <= U32_MAX
      modifies this
      ensures Does(old(Snapshot()), Pinging(n), Snapshot()) && phase.Active? && hist.sent == old(hist.sent) + [PingFrame(n)]
      ensures queues == old(queues)
    {
      hide Inv;
      InvRegistry(Snapshot());
      awaitingPong := Some(n);
      hist := hist.(sent := hist.sent + [PingFrame(n)]);
    }

    method SendNext() returns (frame: Option<Frame>)
      requires Inv(Snapshot()) && phase.Active?
      modifies this
      ensures frame.None? ==> Snapshot() == old(Snapshot())
      ensures frame.Some? ==> Does(old(Snapshot()), Emitting, Snapshot()) && phase.Active? && hist.sent == old(hist.sent) + [frame.value]
      ensures queues == old(queues) && frame == PeerModel.Emit(old(Snapshot())).frame
    {
      hide Inv;
      InvRegistry(Snapshot());
      frame := Emit();
      if frame.Some? { hist := hist.(sent := hist.sent + [frame.value]); }
    }

    /** A writable socket takes a ping that is due, or else the next frame. */
    method SendOne(ping: Option<int>) returns (frame: Option<Frame>, ghost step: Step)
      requires Inv(Snapshot()) && phase.Active? && (ping.Some? ==> 0 <= ping.value <= U32_MAX)
      modifies this
      ensures frame.None? ==> Snapshot() == old(Snapshot())
      ensures frame.Some? ==> Does(old(Snapshot()), step, Snapshot()) && phase.Active? && hist.sent == old(hist.sent) + [frame.value]
      ensures queues == old(queues) && (step.Pinging? || step.Emitting?)
      ensures Sends(old(Snapshot()), ping) == if frame.Some? then Some((step, frame.value)) else None
    {
      hide Inv, Does, PeerModel.Emit;
      step := Emitting;
      if ping.Some? && awaitingPong.None? {
        SendPing(ping.value);
        return Some(PingFrame(ping.value)), Pinging(ping.value);
      }
      frame := SendNext();
    }

    /** A close frame that is owed goes first. */
    method ServeOwed() returns (served: bool, ghost step: Step)
      requires Inv(Snapshot()) && phase.Active? && pendingWrite.None?
      modifies this
      ensures !served ==> Snapshot() == old(Snapshot()) && owed == map[]
      ensures served ==> Does(old(Snapshot()), step, Snapshot()) && phase.Active? && hist.sent == old(hist.sent)
      ensures served ==> queues == old(queues) && pendingWrite.Some? && step.FlushingOwed?
    {
      hide Inv;
      InvRegistry(Snapshot());
      ghost var p := Snapshot();
      step := Emitting;
      var waiting := owed.Keys;
      if waiting == {} {
        assert owed == map[];
        return false, step;
      }
      var id: StreamId :| id in waiting;
      FlushOwed(id);
      step := FlushingOwed(id);
      ActsDoes(p, step, Snapshot());
      served := true;
    }

    /** Then what one of the command channels has: a command, or its end. */
    method ServeQueue() returns (served: bool, ghost step: Step)
      requires Inv(Snapshot()) && phase.Active? && pendingWrite.None? && owed == map[]
      modifies this
      ensures !served ==> Snapshot() == old(Snapshot()) && ((forall h :: h in queues ==> queues[h].adopted) ==> NothingQueued(queues))
      ensures served ==> Does(old(Snapshot()), step, Snapshot()) && phase.Active? && hist.sent == old(hist.sent)
      ensures served ==> step.Taking? || step.Reaping?
      ensures served ==> |queues| < |old(queues)| || (|queues| == |old(queues)| && pendingWrite.Some?)
    {
      hide Inv, PeerModel.OnDropStream, PeerModel.TakeCommand;
      InvRegistry(Snapshot());
      ghost var p := Snapshot();
      step := Emitting;
      var ready := set h | h in queues && queues[h].adopted && (queues[h].cmds != [] || !queues[h].senderAlive);
      if ready == {} {
        forall h | h in queues && queues[h].adopted ensures queues[h].cmds == [] && queues[h].senderAlive { assert h !in ready; }
        return false, step;
      }
      var h: HandleId :| h in ready;
      if queues[h].cmds != [] {
        TakeCommand(h);
        step := Taking(h);
        SameKeys(p, h);
      } else {
        OnDropStream(h);
        step := Reaping(h);
        FewerQueues(p, h);
      }
      ActsDoes(p, step, Snapshot());
      served := true;
    }

    /** With nothing staged to be written: what is owed, then what is queued. */
    method ServeOne() returns (served: bool, ghost step: Step)
      requires Inv(Snapshot()) && phase.Active?
      modifies this
      ensures !served ==> Snapshot() == old(Snapshot()) && (pendingWrite.None? ==> owed == map[])
      ensures !served && pendingWrite.None? && (forall h :: h in queues ==> queues[h].adopted) ==> NothingQueued(queues)
      ensures served ==> Does(old(Snapshot()), step, Snapshot()) && phase.Active? && hist.sent == old(hist.sent)
      ensures served ==> step.FlushingOwed? || step.Taking? || step.Reaping?
      ensures served ==> |queues| < |old(queues)| || (|queues| == |old(queues)| && old(pendingWrite).None? && pendingWrite.Some?)
    {
      hide Inv, Does;
      if pendingWrite.Some? { return false, Emitting; }
      served, step := ServeOwed();
      if served { return; }
      served, step := ServeQueue();
    }

    /** Adopt the channels of all handles that were opened since the last round. */
    method AdoptAll() returns (ghost steps: seq<Step>)
      requires Inv(Snapshot()) && phase.Active?
      modifies this
      ensures PeerRuns.Run(old(Snapshot()), steps, Snapshot()) && Inv(Snapshot()) && phase.Active?
      ensures Receipts(steps) == [] && (forall i :: 0 <= i < |steps| ==> steps[i].Adopting?) && forall h :: h in queues ==> queues[h].adopted
      ensures |queues| == |old(queues)| && pendingWrite == old(pendingWrite) && hist.sent == old(hist.sent)
      ensures Snapshot() == Adopted(old(Snapshot()))
    {
      hide Inv, Enabled, Apply;
      steps := [];
      var fresh0 := set h | h in queues && !queues[h].adopted;
      while fresh0 != {}
        invariant PeerRuns.Run(old(Snapshot()), steps, Snapshot()) && Inv(Snapshot()) && phase.Active?
        invariant fresh0 <= queues.Keys && queues.Keys == old(queues).Keys && pendingWrite == old(pendingWrite) && hist.sent == old(hist.sent)
        invariant Receipts(steps) == [] && (forall i :: 0 <= i < |steps| ==> steps[i].Adopting?) && forall h :: h in queues && h !in fresh0 ==> queues[h].adopted
        decreases fresh0
      {
        ghost var p := Snapshot();
        var h: HandleId :| h in fresh0;
        AdoptQueue(h);
        fresh0 := fresh0 - {h};
        AdoptDoes(p, h, Snapshot());
        RunSnoc(old(Snapshot()), steps, p, Adopting(h), Snapshot());
        ReceiptsSnoc(steps, Adopting(h));
        steps := steps + [Adopting(h)];
      }
      assert |queues.Keys| == |old(queues).Keys|;
      AdoptionsMean(old(Snapshot()), steps, Snapshot());
      AllAdopted(Snapshot());
    }

    /** Read one frame. */
    method ReadOne(f: Frame) returns (ghost step: Step)
      requires Inv(Snapshot()) && phase.Active? && WellFormed(f) && (pendingWrite.None? ==> owed == map[])
      modifies this
      ensures Does(old(Snapshot()), step, Snapshot()) && |queues| == |old(queues)| && pendingWrite == old(pendingWrite)
      ensures step == Receiving(f) && hist.sent == old(hist.sent) && (phase.Active? || phase.HungUp? || phase.Panicked?)
    {
      hide Inv, PeerModel.Receive;
      ghost var p := Snapshot();
      InvRegistry(p);
      Receive(f);
      step := Receiving(f);
      ActsDoes(p, step, Snapshot());
      ReceiveKeepsQueues(p, f);
    }
  }

  /** What a reached state turns into while an object runs is reached too, so all that
      holds of reached states holds of these objects. */
  lemma ObjectsStayReached(cfg: Config, steps: seq<Step>, p: Peer, more: seq<Step>, q: Peer)
    requires PeerRuns.Reached(cfg, steps, p) && PeerRuns.Run(p, more, q)
    ensures PeerRuns.Reached(cfg, steps + more, q)
  {
    RunConcat(NewPeer(cfg), steps, p, more, q);
  }

  lemma AdmittedIsThere(reg: Registry, id: StreamId)
    requires RegistryInHeap(reg)
    ensures id in Admit(reg, id).streams && Admit(reg, id).streams[id] in Admit(reg, id).heap
  {
  }
}
