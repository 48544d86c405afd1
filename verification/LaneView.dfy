/** How one peer looks from the lane of one stream id, and which lane step each
    step of the peer is. Every id is opened at most once, by its handle number 0. */
module LaneView {
  import opened Frames
  import opened Basics
  import opened StreamModel
  import opened PeerModel
  import opened PeerInvariants
  import PeerRuns
  import L = LaneModel

  function Only0(id: StreamId): HandleId { HandleId(id, 0) }

  /** Each id was opened at most once, and is not used again after reaping. */
  ghost predicate Single(p: Peer) {
    && (forall h :: h in p.hist.everOpened ==> h.k == 0 && h.id != SESSION)
    && (forall h :: h in p.queues ==> h.id !in p.hist.reaped)
    && (forall id :: id in p.reg.owed ==> id in p.hist.reaped && p.reg.owed[id].header.id == id)
    && (forall id :: id in p.hist.reaped || id in p.hist.early ==> Only0(id) in p.hist.everOpened)
    && (forall h, i :: h in p.queues && 0 <= i < |p.queues[h].cmds| ==> CommandFrame(p.queues[h].cmds[i]).header.id == h.id)
  }

  function RecordFor(reg: Registry, id: StreamId): Shared {
    if id in reg.streams && reg.streams[id] in reg.heap then reg.heap[reg.streams[id]]
    else if id in reg.inactive && reg.inactive[id] in reg.heap then reg.heap[reg.inactive[id]]
    else StreamModel.Fresh(id)
  }

  function StageOf(reg: Registry, id: StreamId): L.Stage {
    if id in reg.streams then L.Live else if id in reg.inactive then L.Idle else L.Absent
  }

  /** One record as an end; `h` is what is known apart from the record. */
  function EndFor(stage: L.Stage, sh: Shared, early: bool, live: bool, due: bool, everOpened: bool, reaped: bool,
                  listening: bool, sending: bool, written: seq<byte>, read: seq<byte>): L.End {
    L.End(stage, sh.state, sh.recv, sh.maxRecv, sh.send, sh.buffer, sh.synPending, early,
          RemoteFin in sh.events || RemoteRst in sh.events,
          live, due, everOpened, reaped, listening, sending, written, read)
  }

  function EndOf(p: Peer, id: StreamId): L.End {
    EndFor(StageOf(p.reg, id), RecordFor(p.reg, id), id in p.hist.early, Only0(id) in p.handles, Only0(id) in p.queues,
           Only0(id) in p.hist.everOpened, id in p.hist.reaped, p.drv.phase.Active?, !ChannelsClosed(p),
           Log(p.hist.written, id), Log(p.hist.read, id))
  }

  // ----- the frames a peer still has to send for one id -----

  function Only(fs: seq<Frame>, id: StreamId): seq<Frame> {
    if fs == [] then [] else (if fs[0].header.id == id then [fs[0]] else []) + Only(fs[1..], id)
  }

  lemma {:induction false} OnlyConcat(a: seq<Frame>, b: seq<Frame>, id: StreamId)
    ensures Only(a + b, id) == Only(a, id) + Only(b, id)
  {
    if a == [] {
      assert a + b == b;
    } else {
      assert (a + b)[1..] == a[1..] + b;
      OnlyConcat(a[1..], b, id);
    }
  }

  function CommandFrames(cmds: seq<Command>): seq<Frame> {
    if cmds == [] then [] else [CommandFrame(cmds[0])] + CommandFrames(cmds[1..])
  }

  lemma {:induction false} CommandFramesConcat(a: seq<Command>, c: Command)
    ensures CommandFrames(a + [c]) == CommandFrames(a) + [CommandFrame(c)]
  {
    if a == [] {
      assert a + [c] == [c];
    } else {
      assert (a + [c])[1..] == a[1..] + [c];
      CommandFramesConcat(a[1..], c);
    }
  }

  function QueuedFor(queues: map<HandleId, Queue>, id: StreamId): seq<Frame> {
    if Only0(id) in queues then CommandFrames(queues[Only0(id)].cmds) else []
  }

  function OwedFor(p: Peer, id: StreamId): seq<Frame> {
    if !ChannelsClosed(p) && id in p.reg.owed then [p.reg.owed[id]] else []
  }

  /** In the order in which they will reach the link. */
  function Waiting(p: Peer, id: StreamId): seq<Frame> {
    Only(p.drv.backlog, id) + Only(OptFrame(p.drv.pendingWrite), id) + QueuedFor(p.queues, id) + OwedFor(p, id)
  }

  ghost predicate SameView(p: Peer, q: Peer, id: StreamId) {
    EndOf(q, id) == EndOf(p, id) && Waiting(q, id) == Waiting(p, id)
  }

  ghost predicate OthersSame(p: Peer, q: Peer, id: StreamId) { forall i :: i != id ==> SameView(p, q, i) }

  // ----- changes of one record -----

  /** Apart from the record of `id`, nothing a lane sees has changed. */
  ghost predicate Elsewhere(p: Peer, q: Peer, id: StreamId) {
    && (forall i :: i != id ==> (Only0(i) in p.handles <==> Only0(i) in q.handles) && (i in p.hist.early <==> i in q.hist.early))
    && (forall i :: i != id ==> (Only0(i) in p.hist.everOpened <==> Only0(i) in q.hist.everOpened))
    && (forall i :: i != id ==> (i in p.hist.reaped <==> i in q.hist.reaped))
    && (forall i :: i != id ==> Log(p.hist.written, i) == Log(q.hist.written, i) && Log(p.hist.read, i) == Log(q.hist.read, i))
  }

  /** The same for what waits to be sent. */
  ghost predicate WaitingElsewhere(p: Peer, q: Peer, id: StreamId) {
    && (forall i :: i != id ==> (Only0(i) in p.queues <==> Only0(i) in q.queues))
    && (forall i :: i != id && Only0(i) in p.queues ==> p.queues[Only0(i)].cmds == q.queues[Only0(i)].cmds)
    && (forall i :: i != id ==> (i in p.reg.owed <==> i in q.reg.owed))
    && (forall i :: i != id && i in p.reg.owed ==> p.reg.owed[i] == q.reg.owed[i])
    && p.drv.backlog == q.drv.backlog && p.drv.pendingWrite == q.drv.pendingWrite && p.drv.phase == q.drv.phase
  }

  lemma LocalRecord(p: Registry, q: Registry, id: StreamId, r: Ref, i: StreamId)
    requires RegistryOk(p) && Local(p, q, id, r) && i != id
    ensures RecordFor(q, i) == RecordFor(p, i) && StageOf(q, i) == StageOf(p, i)
  {
    hide OwnersOk;
  }

  lemma LocalOthers(p: Peer, q: Peer, id: StreamId, r: Ref)
    requires RegistryOk(p.reg) && Local(p.reg, q.reg, id, r)
    requires Elsewhere(p, q, id) && WaitingElsewhere(p, q, id)
    ensures OthersSame(p, q, id)
  {
    hide RegistryOk, Local, Only, CommandFrames, Log, StageOf, RecordFor;
    forall i | i != id ensures SameView(p, q, i) {
      LocalRecord(p.reg, q.reg, id, r, i);
    }
  }

  // ----- the lane step of each local step -----

  /** What a step of the peer is, seen from the lane of `id`. */
  ghost predicate StepOf(x: L.End, z: L.End, W: seq<Frame>, W2: seq<Frame>, id: StreamId) {
    || (W2 == W && Quiet(x, z))
    || (|W2| == |W| + 1 && W2 == W + [W2[|W|]] && W2[|W|].header.id == id && Loud(x, z, W2[|W|]))
  }

  ghost predicate Quiet(x: L.End, z: L.End) {
    || z == x || L.Opens(x, z) || L.Claims(x, z) || L.ShutsIdle(x, z) || L.LetsGo(x, z) || L.Stops(x, z)
    || (exists k :: L.Takes(x, z, k)) || L.LeavesIdle(x, z) || L.LeavesQuietly(x, z)
  }

  ghost predicate Loud(x: L.End, z: L.End, f: Frame) {
    || L.OpensWithData(x, z, f) || L.Writes(x, z, f) || L.Shuts(x, z, f) || L.Grants(x, z, f)
    || L.LeavesOpen(x, z, f) || L.LeavesHalfClosed(x, z, f)
  }

  /** The peer step from `p` to `q` is a lane step for `id` and nothing elsewhere. */
  ghost predicate View(p: Peer, q: Peer, id: StreamId) {
    StepOf(EndOf(p, id), EndOf(q, id), Waiting(p, id), Waiting(q, id), id) && OthersSame(p, q, id)
  }

  lemma PushWaiting(p: Peer, h: HandleId, c: Command)
    requires h in p.queues && h == Only0(h.id) && h.id !in p.reg.owed
    ensures Waiting(Push(p, h, c), h.id) == Waiting(p, h.id) + [CommandFrame(c)]
  {
    CommandFramesConcat(p.queues[h].cmds, c);
    hide Only;
  }

  /** A live handle, its record and its place. */
  lemma HandleView(p: Peer, h: HandleId)
    requires Inv(p) && Single(p) && h in p.handles
    ensures Usable(p, h) && h == Only0(h.id) && h.id !in p.hist.reaped && h.id !in p.reg.owed
    ensures RecordFor(p.reg, h.id) == p.reg.heap[p.handles[h]] && p.reg.heap[p.handles[h]].owner == h.id
    ensures StageOf(p.reg, h.id) == (if p.reg.heap[p.handles[h]].activated then L.Live else L.Idle)
    ensures RegistryOk(p.reg)
  {
    PeerRuns.HandleRecord(p, h);
    hide RecordsOk, NoLeak, SlotsOk, WaitersInactive, WaitersOpened, FinsTold, BudgetOk;
    assert RegisteredAs(p.reg, h.id, p.handles[h]);
  }

  lemma RewriteRecord(p: Registry, q: Registry, id: StreamId, r: Ref, sh: Shared)
    requires RegistryOk(p) && r in p.heap && RegisteredAs(p, id, r)
    requires q == SetShared(p, r, sh).(accumulated := q.accumulated)
    ensures RecordFor(q, id) == sh && StageOf(q, id) == StageOf(p, id)
  {
    hide OwnersOk;
  }

  lemma RewriteLocal(p: Registry, q: Registry, id: StreamId, r: Ref, sh: Shared)
    requires r in p.heap && p.heap[r].owner == id
    requires q == SetShared(p, r, sh).(accumulated := q.accumulated)
    ensures Local(p, q, id, r)
  {
  }

  /** Rewriting the record of a live handle, and noting history for its id. */
  lemma RewriteView(p: Peer, q: Peer, h: HandleId, sh: Shared)
    requires Inv(p) && Single(p) && h in p.handles
    requires q.reg == SetShared(p.reg, p.handles[h], sh).(accumulated := q.reg.accumulated)
    requires q.handles == p.handles && q.queues == p.queues && q.drv == p.drv
    requires Elsewhere(p, q, h.id)
    ensures OthersSame(p, q, h.id) && RecordFor(q.reg, h.id) == sh && StageOf(q.reg, h.id) == StageOf(p.reg, h.id)
    ensures Waiting(q, h.id) == Waiting(p, h.id)
  {
    hide Inv, Single, RegistryOk, Only, CommandFrames, Elsewhere, RecordFor, StageOf;
    HandleView(p, h);
    PeerRuns.HandleRecord(p, h);
    RewriteRecord(p.reg, q.reg, h.id, p.handles[h], sh);
    RewriteLocal(p.reg, q.reg, h.id, p.handles[h], sh);
    hide Local;
    LocalOthers(p, q, h.id, p.handles[h]);
  }

  lemma OthersTrans(p: Peer, q: Peer, w: Peer, id: StreamId)
    requires OthersSame(p, q, id) && OthersSame(q, w, id)
    ensures OthersSame(p, w, id)
  {
    hide SameView;
    forall i | i != id ensures SameView(p, w, i) { SameTrans(p, q, w, i); }
  }

  lemma SameTrans(p: Peer, q: Peer, w: Peer, i: StreamId)
    requires SameView(p, q, i) && SameView(q, w, i)
    ensures SameView(p, w, i)
  {
    hide EndOf, Waiting;
  }

  lemma PushOthers(p: Peer, h: HandleId, c: Command)
    requires h in p.queues && h == Only0(h.id)
    ensures OthersSame(p, Push(p, h, c), h.id)
    ensures EndOf(Push(p, h, c), h.id) == EndOf(p, h.id)
  {
    hide Only, CommandFrames;
    var q := Push(p, h, c);
    forall i | i != h.id ensures SameView(p, q, i) {
      assert Only0(i) != h;
    }
  }

  // ----- writing -----

  /** Claiming a slot is the lane step Claims; nothing is queued yet. */
  lemma ActivateView(p: Peer, h: HandleId)
    requires Inv(p) && Single(p) && h in p.handles && Usable(p, h)
    ensures var act := PollActivate(p, h); var q := act.peer;
            && Inv(q) && Single(q) && Usable(q, h) && h in q.handles && OthersSame(p, q, h.id)
            && q.queues == p.queues && q.drv == p.drv && Waiting(q, h.id) == Waiting(p, h.id)
            && (if act.reply.Parked? || p.reg.heap[p.handles[h]].activated then EndOf(q, h.id) == EndOf(p, h.id)
                else && EndOf(p, h.id).stage == L.Idle
                     && (|| (EndOf(q, h.id) == EndOf(p, h.id) && ChannelsClosed(p))
                         || (EndOf(q, h.id) == L.Claimed(EndOf(p, h.id)) && q.reg.heap[q.handles[h]].activated)))
  {
    PeerRuns.ActivatingKeeps(p, h);
    HandleView(p, h);
    hide Inv, Single, RegistryOk, Only, CommandFrames, RecordFor, StageOf;
    var r := p.handles[h];
    var q := PollActivate(p, h).peer;
    if !p.reg.heap[r].activated {
      PeerRuns.AdoptionNeverHappens(p, h);
      match TryClaimSlot(p.reg, h.id, r)
      case Some(reg) => ClaimView(p, h, q);
      case None =>
        SameRegistryView(p, q);
        SingleSame(p, q);
    }
  }

  lemma SingleSame(p: Peer, q: Peer)
    requires Single(p) && q.reg.owed == p.reg.owed && q.queues == p.queues && q.hist == p.hist
    ensures Single(q)
  {
  }

  /** Only the slot waiters of the registry change. */
  lemma SameRegistryView(p: Peer, q: Peer)
    requires q == p.(reg := p.reg.(slotWaiters := q.reg.slotWaiters))
    ensures forall i :: SameView(p, q, i)
  {
    hide Only, CommandFrames;
  }

  lemma ClaimRecord(p: Registry, q: Registry, id: StreamId, r: Ref)
    requires id in p.inactive && p.inactive[id] == r && r in p.heap && id !in p.streams
    requires q.streams == p.streams[id := r] && q.heap == p.heap[r := p.heap[r].(activated := true, synPending := true)]
    ensures RecordFor(q, id) == RecordFor(p, id).(activated := true, synPending := true)
    ensures StageOf(p, id) == L.Idle && StageOf(q, id) == L.Live
  {
  }

  lemma ClaimView(p: Peer, h: HandleId, q: Peer)
    requires Inv(p) && Single(p) && Usable(p, h) && !p.reg.heap[p.handles[h]].activated && RegistryOk(p.reg)
    requires TryClaimSlot(p.reg, h.id, p.handles[h]).Some?
    requires q == p.(reg := TryClaimSlot(p.reg, h.id, p.handles[h]).value)
    ensures Single(q) && OthersSame(p, q, h.id) && Waiting(q, h.id) == Waiting(p, h.id)
    ensures EndOf(p, h.id).stage == L.Idle && EndOf(q, h.id) == L.Claimed(EndOf(p, h.id))
    ensures q.reg.heap[q.handles[h]].activated
  {
    hide Inv, Only, CommandFrames, RegistryOk, RecordFor, StageOf, OthersSame;
    PeerRuns.AdoptionNeverHappens(p, h);
    SingleSame(p, q);
    hide Single;
    PeerRuns.ClaimIsLocal(p.reg, q.reg, h.id, p.handles[h]);
    hide Local;
    LocalOthers(p, q, h.id, p.handles[h]);
    ClaimRecord(p.reg, q.reg, h.id, p.handles[h]);
  }

  /** `SendData` queues nothing and changes no window. */
  predicate Withheld(p: Peer, h: HandleId)
    requires Usable(p, h)
  {
    var sh := p.reg.heap[p.handles[h]];
    ChannelsClosed(p) || QueueFull(p, h) || !CanWrite(sh.state) || sh.send == 0
  }

  lemma WithheldView(p: Peer, h: HandleId, data: seq<byte>)
    requires Inv(p) && Single(p) && h in p.handles && Usable(p, h) && Withheld(p, h)
    ensures var q := SendData(p, h, data).peer;
            OthersSame(p, q, h.id) && EndOf(q, h.id) == EndOf(p, h.id) && Waiting(q, h.id) == Waiting(p, h.id)
  {
    hide Inv, Single, RegistryOk, Only, CommandFrames, RecordFor, StageOf;
    HandleView(p, h);
    var sh := p.reg.heap[p.handles[h]];
    if !ChannelsClosed(p) && !QueueFull(p, h) && CanWrite(sh.state) {
      RewriteView(p, SendData(p, h, data).peer, h, sh.(writer := true));
    }
  }

  lemma SentView(p: Peer, h: HandleId, data: seq<byte>) returns (body: seq<byte>, syn: bool)
    requires Inv(p) && Single(p) && h in p.handles && Usable(p, h) && !Withheld(p, h) && EndOf(p, h.id).send >= 0
    ensures var q := SendData(p, h, data).peer; var x := EndOf(p, h.id);
            && OthersSame(p, q, h.id) && |body| <= x.send && x.sending && CanWrite(x.st)
            && EndOf(q, h.id) == L.Wrote(x, body) && syn == x.synPending
            && Waiting(q, h.id) == Waiting(p, h.id) + [DataFrame(h.id, body, syn)]
  {
    hide Inv, Single, RegistryOk, Only, CommandFrames, RecordFor, StageOf, Portion, Waiting, OthersSame;
    HandleView(p, h);
    var r := p.handles[h];
    var sh := p.reg.heap[r];
    PeerRuns.PortionBounds(p, sh.send, |data|);
    var k := Portion(p.reg.cfg, sh.send, |data|);
    body, syn := data[..k], sh.synPending;
    var spent := sh.(send := sh.send - k, synPending := false);
    var q := p.(reg := SetShared(p.reg, r, spent),
                hist := p.hist.(written := p.hist.written[h.id := Log(p.hist.written, h.id) + body]));
    RewriteView(p, q, h, spent);
    var c := SendFrame(DataFrame(h.id, body, syn));
    PushWaiting(q, h, c);
    PushOthers(q, h, c);
    assert Push(q, h, c) == SendData(p, h, data).peer;
    OthersTrans(p, q, Push(q, h, c), h.id);
    assert EndOf(q, h.id) == L.Wrote(EndOf(p, h.id), body);
  }

  /** A write is one lane step. */
  lemma WriteView(p: Peer, h: HandleId, data: seq<byte>)
    requires Inv(p) && Single(p) && h in p.handles && Usable(p, h) && L.EndOk(EndOf(p, h.id))
    requires EndOf(p, h.id).stage != L.Live ==> Waiting(p, h.id) == []
    ensures View(p, PollWrite(p, h, data).peer, h.id)
  {
    hide Inv, Single, SendData, PollActivate, Only, CommandFrames, RecordFor, StageOf, OthersSame, Waiting, L.EndOk;
    HandleView(p, h);
    ActivateView(p, h);
    var act := PollActivate(p, h);
    var m := act.peer;
    if !act.reply.Parked? {
      HandleView(m, h);
      var q := SendData(m, h, data).peer;
      if Withheld(m, h) {
        WithheldView(m, h, data);
        if EndOf(m, h.id) != EndOf(p, h.id) { WithheldMeans(p, m, h); }
      } else {
        LiveSend(p, m, h);
        var body, syn := SentView(m, h, data);
        SentMeans(EndOf(p, h.id), EndOf(m, h.id), Waiting(p, h.id), h.id, body);
      }
      OthersTrans(p, m, q, h.id);
    }
  }

  lemma LiveSend(p: Peer, m: Peer, h: HandleId)
    requires L.EndOk(EndOf(p, h.id)) && (EndOf(m, h.id) == EndOf(p, h.id) || EndOf(m, h.id) == L.Claimed(EndOf(p, h.id)))
    ensures EndOf(m, h.id).send >= 0
  {
  }

  lemma NothingQueued(p: Peer, h: HandleId)
    requires h in p.queues && h == Only0(h.id) && Waiting(p, h.id) == []
    ensures p.queues[h].cmds == []
  {
  }

  /** A claimed stream whose write is withheld cannot write at all. */
  lemma WithheldMeans(p: Peer, m: Peer, h: HandleId)
    requires Usable(p, h) && Usable(m, h) && h in p.handles && h == Only0(h.id) && Withheld(m, h) && L.EndOk(EndOf(p, h.id))
    requires EndOf(m, h.id) == L.Claimed(EndOf(p, h.id)) && EndOf(p, h.id).stage == L.Idle
    requires RecordFor(m.reg, h.id) == m.reg.heap[m.handles[h]]
    requires m.queues == p.queues && Waiting(p, h.id) == [] && m.drv == p.drv
    ensures L.Claims(EndOf(p, h.id), EndOf(m, h.id))
  {
  }

  lemma SentMeans(x: L.End, m: L.End, W: seq<Frame>, id: StreamId, body: seq<byte>)
    requires L.EndOk(x) && x.hasHandle && m.sending && CanWrite(m.st) && |body| <= m.send
    requires (m == x && x.stage == L.Live) || (m == L.Claimed(x) && x.stage == L.Idle)
    ensures StepOf(x, L.Wrote(m, body), W, W + [DataFrame(id, body, m.synPending)], id)
  {
  }

  // ----- reading and closing -----

  lemma StayView(p: Peer, id: StreamId)
    ensures View(p, p, id)
  {
    hide EndOf, Waiting;
  }

  lemma GrantView(p: Peer, h: HandleId, tune: bool)
    requires Inv(p) && Single(p) && h in p.handles && Usable(p, h) && L.EndOk(EndOf(p, h.id))
    ensures View(p, SendWindowUpdate(p, h, tune), h.id)
  {
    hide Inv, Single, RegistryOk, Only, CommandFrames, RecordFor, StageOf, Waiting, OthersSame, L.EndOk, L.Grants;
    StayView(p, h.id);
    HandleView(p, h);
    var sh := p.reg.heap[p.handles[h]];
    if CanRead(sh.state) && !ChannelsClosed(p) && !QueueFull(p, h) {
      match NextGrant(p.reg.cfg, p.reg.accumulated, sh, tune)
      case None =>
      case Some(g) =>
        var q := p.(reg := SetShared(p.reg, p.handles[h], Granted(sh, g)).(accumulated := p.reg.accumulated + (g.newMax - sh.maxRecv)));
        RewriteView(p, q, h, Granted(sh, g));
        var c := SendFrame(CreditFrame(h.id, g.credit));
        PushWaiting(q, h, c);
        PushOthers(q, h, c);
        assert Push(q, h, c) == SendWindowUpdate(p, h, tune);
        OthersTrans(p, q, Push(q, h, c), h.id);
        GrantMeans(p, h, tune, g, EndOf(q, h.id));
        assert (Waiting(p, h.id) + [CommandFrame(c)])[|Waiting(p, h.id)|] == CommandFrame(c);
    }
  }

  /** A grant worth sending is the lane step Grants: an idle stream never gets one. */
  lemma GrantMeans(p: Peer, h: HandleId, tune: bool, g: Grant, z: L.End)
    requires Inv(p) && Usable(p, h) && L.EndOk(EndOf(p, h.id)) && Only0(h.id) in p.handles
    requires var sh := p.reg.heap[p.handles[h]];
             && RecordFor(p.reg, h.id) == sh && StageOf(p.reg, h.id) == (if sh.activated then L.Live else L.Idle)
             && NextGrant(p.reg.cfg, p.reg.accumulated, sh, tune) == Some(g) && CanRead(sh.state) && !ChannelsClosed(p)
             && z == L.Topped(EndOf(p, h.id), g.credit, g.newMax)
    ensures L.Grants(EndOf(p, h.id), z, CreditFrame(h.id, g.credit))
  {
    hide RecordFor, StageOf, Inv, Log;
    var sh := p.reg.heap[p.handles[h]];
    PeerRuns.ExcessBound(p, p.handles[h]);
    EndWindows(p, h.id);
    GrantKeepsWindows(p.reg.cfg, p.reg.accumulated, sh, tune);
    assert |sh.buffer| <= U32_MAX;
  }

  lemma EndWindows(p: Peer, id: StreamId)
    requires L.EndOk(EndOf(p, id))
    ensures WindowsOk(RecordFor(p.reg, id))
    ensures StageOf(p.reg, id) != L.Live ==> RecordFor(p.reg, id).recv == RecordFor(p.reg, id).maxRecv
  {
    hide RecordFor, StageOf;
  }

  lemma TakeView(p: Peer, h: HandleId, n: nat, room: bool)
    requires Inv(p) && Single(p) && h in p.handles && Usable(p, h)
    ensures View(p, ReadBuffer(p, h, n, room).peer, h.id)
  {
    hide Inv, Single, RegistryOk, Only, CommandFrames, RecordFor, StageOf, Waiting, OthersSame;
    StayView(p, h.id);
    HandleView(p, h);
    var r := p.handles[h];
    var sh := p.reg.heap[r];
    var k := Min(n, |sh.buffer|);
    var q := ReadBuffer(p, h, n, room).peer;
    if k > 0 {
      RewriteView(p, q, h, sh.(buffer := sh.buffer[k..]));
      assert L.Takes(EndOf(p, h.id), EndOf(q, h.id), k);
    } else if (p.reg.cfg.readAfterClose || !ChannelsClosed(p)) && CanRead(sh.state) {
      RewriteView(p, q, h, sh.(reader := true, readNothing := n == 0, readRoom := room));
    }
  }

  lemma ShutView(p: Peer, h: HandleId)
    requires Inv(p) && Single(p) && h in p.handles && Usable(p, h)
    ensures View(p, PollClose(p, h).peer, h.id)
  {
    hide Inv, Single, RegistryOk, Only, CommandFrames, RecordFor, StageOf, Waiting, OthersSame;
    StayView(p, h.id);
    HandleView(p, h);
    var r := p.handles[h];
    var sh := p.reg.heap[r];
    var q := PollClose(p, h).peer;
    if sh.state.Closed? {
    } else if !sh.activated {
      RewriteView(p, q, h, Mark(sh, InactiveClose));
      assert L.ShutsIdle(EndOf(p, h.id), EndOf(q, h.id));
    } else if !ChannelsClosed(p) && !QueueFull(p, h) {
      var m := p.(reg := SetShared(p.reg, r, Mark(sh, LocalFin)));
      RewriteView(p, m, h, Mark(sh, LocalFin));
      PushWaiting(m, h, CloseStream(h.id));
      PushOthers(m, h, CloseStream(h.id));
      assert Push(m, h, CloseStream(h.id)) == q;
      OthersTrans(p, m, q, h.id);
      assert L.Shuts(EndOf(p, h.id), EndOf(q, h.id), FinFrame(h.id));
      assert (Waiting(p, h.id) + [FinFrame(h.id)])[|Waiting(p, h.id)|] == FinFrame(h.id);
    }
  }

  // ----- opening and letting go -----

  lemma AttachRecord(p: Registry, id: StreamId, r: Ref)
    requires RegistryOk(p)
    requires r == (if RefOf(p, id).Some? then RefOf(p, id).value else p.nextRef)
    ensures var q := Attach(p, id, r);
            && RecordFor(q, id) == RecordFor(p, id).(claimed := true)
            && StageOf(q, id) == (if StageOf(p, id) == L.Absent then L.Idle else StageOf(p, id))
  {
  }

  lemma AttachLocal(p: Registry, id: StreamId, r: Ref)
    requires RegistryOk(p)
    requires r == (if RefOf(p, id).Some? then RefOf(p, id).value else p.nextRef)
    ensures Local(p, Attach(p, id, r), id, r)
  {
  }

  lemma OpenView(p: Peer, h: HandleId)
    requires Inv(p) && Single(p) && CanOpen(p, h) && h == Only0(h.id) && h !in p.queues && h.id !in p.hist.reaped
    requires h.id !in p.reg.owed
    ensures View(p, NewStream(p, h), h.id)
    ensures L.Opens(EndOf(p, h.id), EndOf(NewStream(p, h), h.id))
  {
    var r := if RefOf(p.reg, h.id).Some? then RefOf(p.reg, h.id).value else p.reg.nextRef;
    hide RecordsOk, HandlesOk, QueuesOk, NoLeak, SlotsOk, WaitersInactive, WaitersOpened, FinsTold, BudgetOk, Single, RegistryOk,
         RecordFor, StageOf, Only, Attach, Local, OthersSame, L.Opens, Waiting, EndOf;
    AttachRecord(p.reg, h.id, r);
    AttachLocal(p.reg, h.id, r);
    AttachOwed(p.reg, h.id, r);
    OpenElsewhere(p, h);
    OpenMeans(p, h);
    hide NewStream;
    LocalOthers(p, NewStream(p, h), h.id, r);
  }

  lemma OpenMeans(p: Peer, h: HandleId)
    requires h == Only0(h.id) && h !in p.queues && CanOpen(p, h)
    requires var r := if RefOf(p.reg, h.id).Some? then RefOf(p.reg, h.id).value else p.reg.nextRef;
             var q := Attach(p.reg, h.id, r);
             && RecordFor(q, h.id) == RecordFor(p.reg, h.id).(claimed := true) && q.owed == p.reg.owed
             && StageOf(q, h.id) == (if StageOf(p.reg, h.id) == L.Absent then L.Idle else StageOf(p.reg, h.id))
    ensures L.Opens(EndOf(p, h.id), EndOf(NewStream(p, h), h.id))
    ensures Waiting(NewStream(p, h), h.id) == Waiting(p, h.id)
  {
    hide RecordFor, StageOf, Only, Attach, Log;
  }

  lemma AttachOwed(reg: Registry, id: StreamId, r: Ref)
    ensures Attach(reg, id, r).owed == reg.owed
  {
  }

  lemma OpenElsewhere(p: Peer, h: HandleId)
    requires h == Only0(h.id)
    ensures Elsewhere(p, NewStream(p, h), h.id) && WaitingElsewhere(p, NewStream(p, h), h.id)
  {
  }

  /** Forgetting the handle, or its queue. */
  lemma ReleaseView(p: Peer, h: HandleId)
    requires h == Only0(h.id)
    ensures OthersSame(p, Release(p, h), h.id) && Waiting(Release(p, h), h.id) == Waiting(p, h.id)
    ensures EndOf(Release(p, h), h.id) == EndOf(p, h.id).(hasHandle := false)
  {
  }

  lemma RequeueView(p: Peer, q: Peer, h: HandleId)
    requires h in p.queues && h in q.queues && q.queues[h].cmds == p.queues[h].cmds
    requires q == p.(queues := p.queues[h := q.queues[h]])
    ensures forall i :: SameView(p, q, i)
  {
    hide Only, CommandFrames, Log, RecordFor, StageOf;
  }

  // ----- reaping -----

  lemma DropQueueView(p: Peer, h: HandleId)
    requires h == Only0(h.id) && h in p.queues && p.queues[h].cmds == []
    ensures var q := p.(queues := p.queues - {h});
            && OthersSame(p, q, h.id) && Waiting(q, h.id) == Waiting(p, h.id)
            && EndOf(q, h.id) == EndOf(p, h.id).(hasQueue := false)
  {
  }

  lemma FreedRecord(p: Registry, q: Registry, id: StreamId)
    requires q.streams == p.streams - {id} && q.inactive == p.inactive - {id}
    ensures RecordFor(q, id) == StreamModel.Fresh(id) && StageOf(q, id) == L.Absent
  {
  }

  lemma NoHandleLeft(p: Peer, h: HandleId, r: Ref)
    requires Inv(p) && Single(p) && h == Only0(h.id) && h !in p.handles && RegisteredAs(p.reg, h.id, r)
    ensures !HeldByHandle(p.handles, r)
  {
  }

  lemma ReapView(p: Peer, h: HandleId)
    requires Inv(p) && Single(p) && Enabled(p, Reaping(h))
    ensures View(p, OnDropStream(p, h), h.id)
  {
    ReapFacts(p, h);
    var id := h.id;
    var q := OnDropStream(p, h);
    hide Inv, Single, Enabled, RegistryOk, HeldByHandle, EndOf, Waiting, OthersSame;
    if id in p.reg.streams {
      ReapActiveView(p, h, q);
    } else if id in p.reg.inactive {
      ReapInactiveView(p, h, q);
    } else {
      DropQueueView(p, h);
      DropMeans(EndOf(p, id), EndOf(q, id));
    }
  }

  lemma DropMeans(x: L.End, z: L.End)
    requires z == x.(hasQueue := false) && !x.hasHandle
    ensures L.LetsGo(x, z)
  {
  }

  lemma ReapFacts(p: Peer, h: HandleId)
    requires Inv(p) && Single(p) && Enabled(p, Reaping(h))
    ensures h == Only0(h.id) && h !in p.handles && OutboundIdle(p) && !ChannelsClosed(p) && p.drv.phase.Active?
    ensures h in p.queues && p.queues[h].cmds == [] && p.drv.backlog == []
    ensures RegistryOk(p.reg) && RegistryInHeap(p.reg)
    ensures h.id in p.reg.streams ==> !HeldByHandle(p.handles, p.reg.streams[h.id])
    ensures h.id in p.reg.inactive ==> !HeldByHandle(p.handles, p.reg.inactive[h.id])
  {
    hide RecordsOk, NoLeak, SlotsOk, WaitersInactive, WaitersOpened, FinsTold, BudgetOk, HandlesOk, RegistryOk;
    if h.id in p.reg.streams { NoHandleLeft(p, h, p.reg.streams[h.id]); }
    if h.id in p.reg.inactive { NoHandleLeft(p, h, p.reg.inactive[h.id]); }
  }

  lemma ReapElsewhere(p: Peer, q: Peer, h: HandleId)
    requires h == Only0(h.id) && h in p.queues && p.reg.owed == map[]
    requires q.handles == p.handles && q.queues == p.queues - {h} && q.drv == p.drv
    requires q.hist == p.hist.(reaped := q.hist.reaped) && (q.hist.reaped == p.hist.reaped || q.hist.reaped == p.hist.reaped + {h.id})
    requires q.reg.owed == map[] || q.reg.owed.Keys == {h.id}
    ensures Elsewhere(p, q, h.id) && WaitingElsewhere(p, q, h.id)
  {
  }

  lemma ReapActiveView(p: Peer, h: HandleId, q: Peer)
    requires h == Only0(h.id) && h in p.queues && h !in p.handles && OutboundIdle(p) && p.drv.phase.Active?
    requires p.queues[h].cmds == [] && p.drv.backlog == [] && RegistryOk(p.reg) && RegistryInHeap(p.reg)
    requires h.id in p.reg.streams && !HeldByHandle(p.handles, p.reg.streams[h.id])
    requires h.id in p.reg.inactive ==> !HeldByHandle(p.handles, p.reg.inactive[h.id])
    requires q == OnDropStream(p, h)
    ensures View(p, q, h.id)
  {
    var id := h.id;
    var r := p.reg.streams[id];
    hide HeldByHandle, Only, Log, RegistryOk, Local, Placed, OthersSame, Elsewhere, WaitingElsewhere, EndOf, Waiting, RecordFor, StageOf;
    StreamPlace(p.reg, id);
    assert q == p.(queues := p.queues - {h}, reg := ReapActive(p.reg, id), hist := p.hist.(reaped := p.hist.reaped + {id}));
    hide OnDropStream;
    PeerRuns.RemoveAbsent(p.reg.inactive, id);
    ReapElsewhere(p, q, h);
    PeerRuns.ReapLocal(p.reg, q.reg, id, r);
    FreedRecord(p.reg, q.reg, id);
    LocalOthers(p, q, id, r);
    ReapEnds(p, h, q);
  }

  lemma ReapEnds(p: Peer, h: HandleId, q: Peer)
    requires h == Only0(h.id) && h in p.queues && h !in p.handles && OutboundIdle(p) && p.drv.phase.Active?
    requires p.queues[h].cmds == [] && p.drv.backlog == []
    requires h.id in p.reg.streams && p.reg.streams[h.id] in p.reg.heap
    requires q == p.(queues := p.queues - {h}, reg := ReapActive(p.reg, h.id), hist := p.hist.(reaped := p.hist.reaped + {h.id}))
    requires RecordFor(p.reg, h.id) == p.reg.heap[p.reg.streams[h.id]] && StageOf(p.reg, h.id) == L.Live
    requires RecordFor(q.reg, h.id) == StreamModel.Fresh(h.id) && StageOf(q.reg, h.id) == L.Absent
    ensures StepOf(EndOf(p, h.id), EndOf(q, h.id), Waiting(p, h.id), Waiting(q, h.id), h.id)
  {
    hide RecordFor, StageOf, Log, Quiet, Loud;
    var x := EndOf(p, h.id);
    assert EndOf(q, h.id) == L.Gone(x).(reaped := true);
    LeaveMeans(x, EndOf(q, h.id), h.id);
  }

  lemma StreamPlace(reg: Registry, id: StreamId)
    requires RegistryOk(reg) && id in reg.streams
    ensures id !in reg.inactive && reg.streams[id] in reg.heap && RegisteredAs(reg, id, reg.streams[id])
    ensures RecordFor(reg, id) == reg.heap[reg.streams[id]] && StageOf(reg, id) == L.Live
    ensures reg.heap[reg.streams[id]].owner == id
  {
  }

  lemma InactivePlace(reg: Registry, id: StreamId)
    requires RegistryOk(reg) && id in reg.inactive
    ensures id !in reg.streams && reg.inactive[id] in reg.heap && RegisteredAs(reg, id, reg.inactive[id])
    ensures RecordFor(reg, id) == reg.heap[reg.inactive[id]] && StageOf(reg, id) == L.Idle
    ensures reg.heap[reg.inactive[id]].owner == id
  {
  }

  lemma LeaveMeans(x: L.End, z: L.End, id: StreamId)
    requires L.Leaving(x) && z == L.Gone(x).(reaped := true)
    ensures CloseOwed(id, x.st).Some? ==> Loud(x, z, CloseOwed(id, x.st).value) && CloseOwed(id, x.st).value.header.id == id
    ensures CloseOwed(id, x.st).None? ==> Quiet(x, z)
  {
  }

  lemma ReapInactiveView(p: Peer, h: HandleId, q: Peer)
    requires h == Only0(h.id) && h in p.queues && h !in p.handles && OutboundIdle(p) && p.drv.phase.Active?
    requires p.queues[h].cmds == [] && p.drv.backlog == [] && RegistryOk(p.reg) && RegistryInHeap(p.reg)
    requires h.id in p.reg.inactive && h.id !in p.reg.streams && !HeldByHandle(p.handles, p.reg.inactive[h.id])
    requires q == OnDropStream(p, h)
    ensures View(p, q, h.id)
  {
    var id := h.id;
    var r := p.reg.inactive[id];
    hide HeldByHandle, Only, Log;
    assert q == p.(queues := p.queues - {h}, reg := ReapInactive(p.reg, id));
    hide OnDropStream;
    InactivePlace(p.reg, id);
    PeerRuns.RemoveAbsent(p.reg.streams, id);
    ReapElsewhere(p, q, h);
    PeerRuns.ReapLocal(p.reg, q.reg, id, r);
    FreedRecord(p.reg, q.reg, id);
    hide RegistryOk, Local, Placed;
    LocalOthers(p, q, id, r);
    hide OthersSame, Elsewhere, WaitingElsewhere;
    assert L.LeavesIdle(EndOf(p, id), EndOf(q, id));
  }

  // ----- receiving -----

  /** The frame is taken: no termination and no overflow. */
  ghost predicate Accepted(p: Peer, f: Frame)
    requires RegistryInHeap(p.reg)
  {
    !OnFrame(p, f).action.Terminate? && !OnFrame(p, f).action.Panic?
  }

  /** What an arriving frame of the id does to the end. */
  ghost predicate Arrives(x: L.End, z: L.End, f: Frame, Q: seq<Frame>) {
    || L.TakesReset(x, z, f, Q) || L.TakesData(x, z, f, Q) || L.TakesSyn(x, z, f, Q) || L.TakesCredit(x, z, f, Q)
    || L.Ignores(x, z, f, Q)
  }

  lemma DriverView(p: Peer, q: Peer)
    requires q == p.(drv := q.drv) && q.drv.phase == p.drv.phase && q.drv.backlog == p.drv.backlog && q.drv.pendingWrite == p.drv.pendingWrite
    ensures forall i :: SameView(p, q, i)
  {
    hide Only, CommandFrames, Log, RecordFor, StageOf;
  }

  lemma RegistryOnly(p: Peer, q: Peer, id: StreamId)
    requires q == p.(reg := q.reg) && q.reg.owed == p.reg.owed
    ensures Elsewhere(p, q, id) && WaitingElsewhere(p, q, id) && Waiting(q, id) == Waiting(p, id)
  {
    hide Only, CommandFrames, Log;
  }

  lemma LiveRewriteView(p: Peer, q: Peer, id: StreamId, sh: Shared)
    requires RegistryOk(p.reg) && id in p.reg.streams && p.reg.streams[id] in p.reg.heap
    requires q == p.(reg := SetShared(p.reg, p.reg.streams[id], sh))
    ensures OthersSame(p, q, id) && Waiting(q, id) == Waiting(p, id)
    ensures RecordFor(q.reg, id) == sh && StageOf(q.reg, id) == L.Live
  {
    hide RegistryOk, RecordFor, StageOf, Elsewhere, WaitingElsewhere, OthersSame, Waiting, Local;
    StreamPlace(p.reg, id);
    RewriteRecord(p.reg, q.reg, id, p.reg.streams[id], sh);
    RewriteLocal(p.reg, q.reg, id, p.reg.streams[id], sh);
    RegistryOnly(p, q, id);
    LocalOthers(p, q, id, p.reg.streams[id]);
  }

  lemma AdmitView(p: Peer, id: StreamId)
    requires Inv(p) && id !in p.reg.streams && RegistryInHeap(p.reg)
    ensures var q := p.(reg := Admit(p.reg, id));
            && OthersSame(p, q, id) && Waiting(q, id) == Waiting(p, id)
            && id in q.reg.streams && q.reg.streams[id] in q.reg.heap
            && RecordFor(q.reg, id) == RecordFor(p.reg, id).(activated := true) && StageOf(q.reg, id) == L.Live
            && RecordFor(q.reg, id) == q.reg.heap[q.reg.streams[id]]
  {
    hide Inv, RegistryOk, RecordFor, StageOf, Elsewhere, WaitingElsewhere, OthersSame, Waiting, Local, Admit;
    RegistryPart(p);
    var q := p.(reg := Admit(p.reg, id));
    var r := if id in p.reg.inactive then p.reg.inactive[id] else p.reg.nextRef;
    AdmitLocal(p.reg, id, r);
    AdmitRecord(p.reg, id);
    RegistryOnly(p, q, id);
    LocalOthers(p, q, id, r);
  }

  lemma RegistryPart(p: Peer)
    requires Inv(p)
    ensures RegistryOk(p.reg)
  {
  }

  lemma AdmitLocal(p: Registry, id: StreamId, r: Ref)
    requires RegistryOk(p) && id !in p.streams
    requires r == if id in p.inactive then p.inactive[id] else p.nextRef
    ensures Local(p, Admit(p, id), id, r)
  {
  }

  lemma AdmitRecord(p: Registry, id: StreamId)
    requires RegistryOk(p) && id !in p.streams
    ensures var q := Admit(p, id);
            && id in q.streams && q.streams[id] in q.heap && RecordFor(q, id) == q.heap[q.streams[id]]
            && RecordFor(q, id) == RecordFor(p, id).(activated := true) && StageOf(q, id) == L.Live && q.owed == p.owed
  {
    hide OwnersOk;
  }

  /** The record after a frame for a live stream. */
  function After(sh: Shared, f: Frame): Shared {
    if f.header.tag.WindowUpdate? then sh.(send := sh.send + f.header.length, writer := false)
    else if f.header.flags.rst then WakeBoth(Mark(sh, RemoteRst))
    else Received(sh, f)
  }

  lemma LiveReceive(p: Peer, f: Frame)
    requires Enabled(p, Receiving(f)) && Accepted(p, f) && !p.drv.terminating
    requires (f.header.tag.Data? || f.header.tag.WindowUpdate?) && f.header.id != SESSION && f.header.id in p.reg.streams
    ensures Receive(p, f) == p.(reg := SetShared(p.reg, p.reg.streams[f.header.id], After(p.reg.heap[p.reg.streams[f.header.id]], f)))
  {
  }

  lemma CreditMeans(p: Peer, q: Peer, f: Frame, Q: seq<Frame>)
    requires q == p.(reg := q.reg) && Q != [] && Q[0] == f
    requires StageOf(p.reg, f.header.id) == StageOf(q.reg, f.header.id) == L.Live
    requires RecordFor(q.reg, f.header.id) == After(RecordFor(p.reg, f.header.id), f)
    requires f.header.tag.WindowUpdate?
    ensures L.TakesCredit(EndOf(p, f.header.id), EndOf(q, f.header.id), f, Q)
  {
    hide RecordFor, StageOf, Log;
  }

  lemma ResetMeans(p: Peer, q: Peer, f: Frame, Q: seq<Frame>)
    requires q == p.(reg := q.reg) && Q != [] && Q[0] == f
    requires StageOf(p.reg, f.header.id) == StageOf(q.reg, f.header.id) == L.Live
    requires RecordFor(q.reg, f.header.id) == After(RecordFor(p.reg, f.header.id), f)
    requires f.header.tag.Data? && f.header.flags.rst
    ensures L.TakesReset(EndOf(p, f.header.id), EndOf(q, f.header.id), f, Q)
  {
    hide RecordFor, StageOf, Log;
  }

  lemma DataMeans(p: Peer, q: Peer, f: Frame, Q: seq<Frame>)
    requires q == p.(reg := q.reg) && Q != [] && Q[0] == f
    requires StageOf(p.reg, f.header.id) == StageOf(q.reg, f.header.id) == L.Live
    requires RecordFor(q.reg, f.header.id) == After(RecordFor(p.reg, f.header.id), f)
    requires f.header.tag.Data? && !f.header.flags.rst
    ensures L.TakesData(EndOf(p, f.header.id), EndOf(q, f.header.id), f, Q)
  {
    hide RecordFor, StageOf, Log;
  }

  lemma AfterMeans(p: Peer, q: Peer, f: Frame, Q: seq<Frame>)
    requires q == p.(reg := q.reg) && Q != [] && Q[0] == f
    requires StageOf(p.reg, f.header.id) == StageOf(q.reg, f.header.id) == L.Live
    requires RecordFor(q.reg, f.header.id) == After(RecordFor(p.reg, f.header.id), f)
    requires f.header.tag.Data? || f.header.tag.WindowUpdate?
    ensures Arrives(EndOf(p, f.header.id), EndOf(q, f.header.id), f, Q)
  {
    hide EndOf, RecordFor, StageOf, After, L.TakesCredit, L.TakesReset, L.TakesData;
    if f.header.tag.WindowUpdate? {
      CreditMeans(p, q, f, Q);
    } else if f.header.flags.rst {
      ResetMeans(p, q, f, Q);
    } else {
      DataMeans(p, q, f, Q);
    }
  }

  lemma SynMeans(p: Peer, q: Peer, f: Frame, Q: seq<Frame>)
    requires q == p.(reg := q.reg) && f.header.tag.Data? && f.header.flags.syn && !f.header.flags.rst && Q != [] && Q[0] == f
    requires StageOf(p.reg, f.header.id) != L.Live && StageOf(q.reg, f.header.id) == L.Live
    requires RecordFor(q.reg, f.header.id) == Received(RecordFor(p.reg, f.header.id).(activated := true), f)
    ensures Arrives(EndOf(p, f.header.id), EndOf(q, f.header.id), f, Q)
  {
    hide RecordFor, StageOf, Log;
  }

  lemma SynReceive(p: Peer, f: Frame)
    requires Enabled(p, Receiving(f)) && Accepted(p, f) && !p.drv.terminating && p.reg.owed == map[]
    requires f.header.tag.Data? && f.header.id != SESSION && f.header.id !in p.reg.streams
    requires f.header.flags.syn && !f.header.flags.rst
    ensures |p.reg.streams| < p.reg.cfg.maxStreams
    ensures var a := Admit(p.reg, f.header.id);
            && f.header.id in a.streams && a.streams[f.header.id] in a.heap
            && Receive(p, f) == p.(reg := SetShared(a, a.streams[f.header.id], Received(a.heap[a.streams[f.header.id]], f)))
  {
  }

  lemma LostFrame(p: Peer, f: Frame)
    requires Enabled(p, Receiving(f)) && Accepted(p, f) && !p.drv.terminating
    requires (f.header.tag.Data? || f.header.tag.WindowUpdate?) && f.header.id != SESSION && f.header.id !in p.reg.streams
    requires f.header.tag.Data? && f.header.flags.syn ==> f.header.flags.rst
    ensures Receive(p, f) == p
  {
  }

  /** A listening end takes the frame, or ignores it for want of a record. */
  lemma ReceiveView(p: Peer, f: Frame, Q: seq<Frame>)
    requires Inv(p) && Enabled(p, Receiving(f)) && Accepted(p, f) && !p.drv.terminating && L.LaneFrame(f)
    requires (f.header.tag.Data? || f.header.tag.WindowUpdate?) && f.header.id != SESSION && Q != [] && Q[0] == f
    ensures var q := Receive(p, f);
            && OthersSame(p, q, f.header.id) && Waiting(q, f.header.id) == Waiting(p, f.header.id)
            && Arrives(EndOf(p, f.header.id), EndOf(q, f.header.id), f, Q)
  {
    var id := f.header.id;
    var q := Receive(p, f);
    StayView(p, id);
    RegistryPart(p);
    PeerRuns.OwedIdle(p);
    if id in p.reg.streams {
      LiveReceive(p, f);
      hide Inv, RegistryOk, RecordFor, StageOf, OthersSame, Waiting, Receive, Enabled, Accepted, Arrives, EndOf;
      StreamPlace(p.reg, id);
      LiveRewriteView(p, q, id, After(p.reg.heap[p.reg.streams[id]], f));
      AfterMeans(p, q, f, Q);
    } else if L.IsSyn(f) {
      SynReceive(p, f);
      hide RegistryOk, RecordFor, StageOf, OthersSame, Waiting, Receive, Accepted, Arrives, EndOf;
      SynView(p, f, q, Q);
    } else {
      LostFrame(p, f);
      hide Inv, RegistryOk, RecordFor, OthersSame, Waiting, Receive, Enabled, Accepted;
    }
  }

  lemma SynView(p: Peer, f: Frame, q: Peer, Q: seq<Frame>)
    requires Inv(p) && RegistryInHeap(p.reg) && p.reg.owed == map[] && |p.reg.streams| < p.reg.cfg.maxStreams
    requires L.IsSyn(f) && !f.header.flags.rst && f.header.id !in p.reg.streams && Q != [] && Q[0] == f
    requires var a := Admit(p.reg, f.header.id);
             && f.header.id in a.streams && a.streams[f.header.id] in a.heap
             && q == p.(reg := SetShared(a, a.streams[f.header.id], Received(a.heap[a.streams[f.header.id]], f)))
    ensures OthersSame(p, q, f.header.id) && Waiting(q, f.header.id) == Waiting(p, f.header.id)
    ensures Arrives(EndOf(p, f.header.id), EndOf(q, f.header.id), f, Q)
  {
    hide Inv, RegistryOk, RecordFor, OthersSame, Waiting, Admit, Arrives, Received, EndOf;
    var id := f.header.id;
    PeerRuns.AdmittingKeeps(p, id);
    var m := p.(reg := Admit(p.reg, id));
    RegistryPart(m);
    AdmitView(p, id);
    LiveRewriteView(m, q, id, Received(m.reg.heap[m.reg.streams[id]], f));
    OthersTrans(p, m, q, id);
    SynMeans(p, q, f, Q);
  }

  // ----- steps that touch every lane at once -----

  lemma StopRecord(reg: Registry, id: StreamId)
    requires RegistryInHeap(reg)
    ensures var q := StopReceiving(reg);
            && StageOf(q, id) == StageOf(reg, id)
            && RecordFor(q, id) == (if StageOf(reg, id) == L.Absent then RecordFor(reg, id)
                                    else WakeBoth(Mark(RecordFor(reg, id), LeftActive)))
  {
  }

  lemma StopView(p: Peer, order: seq<StreamId>, id: StreamId)
    requires KeyOrder(p.reg.owed, order) && RegistryInHeap(p.reg)
    ensures L.Stops(EndOf(p, id), EndOf(BeginClose(p, order), id))
  {
    StopRecord(p.reg, id);
    hide RecordFor, StageOf, Log, StopReceiving, OwedFrames;
  }

  /** Once the remote said goodbye, nothing more is read. */
  lemma HangUpView(p: Peer, code: int, id: StreamId)
    requires !ChannelsClosed(p) && (Only0(id) in p.handles ==> Only0(id) in p.queues)
    ensures var q := p.(drv := p.drv.(phase := HungUp(code)));
            L.LetsGo(EndOf(p, id), EndOf(q, id)) || EndOf(q, id) == EndOf(p, id)
    ensures var q := p.(drv := p.drv.(phase := HungUp(code))); Waiting(q, id) == Waiting(p, id)
  {
    hide RecordFor, StageOf, Log, Only;
  }
}
