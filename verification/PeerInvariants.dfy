/** What every run of one peer keeps, whatever the remote sends: the registry is
    consistent, no slot leaks, the window budget adds up, and every parked task
    has a reason to wait. */
module PeerInvariants {
  import opened Frames
  import opened Basics
  import opened StreamModel
  import opened PeerModel

  // ----- sums over the live records -----

  ghost function Total(heap: map<Ref, Shared>, n: nat, w: Shared -> int): int {
    if n == 0 then 0
    else Total(heap, n - 1, w) + (if n - 1 in heap then w(heap[n - 1]) else 0)
  }

  lemma {:induction false} TotalSame(a: map<Ref, Shared>, b: map<Ref, Shared>, n: nat, w: Shared -> int)
    requires forall r | 0 <= r < n :: (r in a <==> r in b) && (r in a ==> w(a[r]) == w(b[r]))
    ensures Total(a, n, w) == Total(b, n, w)
  {
    if n > 0 { TotalSame(a, b, n - 1, w); }
  }

  /** The weight of one reference, live or not. */
  ghost function At(heap: map<Ref, Shared>, w: Shared -> int, r: Ref): int {
    if r in heap then w(heap[r]) else 0
  }

  lemma {:induction false} TotalLocal(a: map<Ref, Shared>, b: map<Ref, Shared>, n: nat, w: Shared -> int, r: Ref)
    requires r < n && AgreeExcept(a, b, r)
    ensures Total(b, n, w) - Total(a, n, w) == At(b, w, r) - At(a, w, r)
  {
    if r == n - 1 {
      TotalSame(a, b, n - 1, w);
    } else {
      TotalLocal(a, b, n - 1, w, r);
    }
  }

  ghost predicate AgreeExcept(a: map<Ref, Shared>, b: map<Ref, Shared>, r: Ref) {
    forall x :: x != r ==> (x in a <==> x in b) && (x in a && x in b ==> a[x] == b[x])
  }

  lemma {:induction false} TotalAtLeast(heap: map<Ref, Shared>, n: nat, w: Shared -> int, r: Ref)
    requires forall q | q in heap :: w(heap[q]) >= 0
    requires r < n && r in heap
    ensures Total(heap, n, w) >= w(heap[r])
  {
    TotalNonNegative(heap, n - 1, w);
    if r < n - 1 { TotalAtLeast(heap, n - 1, w, r); }
  }

  lemma {:induction false} TotalNonNegative(heap: map<Ref, Shared>, n: nat, w: Shared -> int)
    requires forall q | q in heap :: w(heap[q]) >= 0
    ensures Total(heap, n, w) >= 0
  {
    if n > 0 { TotalNonNegative(heap, n - 1, w); }
  }

  /** Window beyond the default that a record has been given. */
  function Excess(sh: Shared): int { sh.maxRecv - DEFAULT_CREDIT }

  function One(sh: Shared): int { if sh.activated then 1 else 0 }

  function BufferedActive(sh: Shared): int { if sh.activated then |sh.buffer| else 0 }

  // ----- the invariants -----

  predicate Untouched(sh: Shared) {
    && sh.recv == sh.maxRecv == sh.send == DEFAULT_CREDIT && sh.buffer == []
    && !sh.synPending && sh.claimed
  }

  /** A parked writer has no credit and was not reset. A parked reader that asked for bytes has
      nothing to read, may still get some, and (if its command queue had room)
      has granted more than half of its window. */
  predicate ParkedOk(sh: Shared) {
    && (sh.writer ==> sh.send == 0 && RemoteRst !in sh.events)
    && (sh.reader && !sh.readNothing ==>
          && sh.buffer == [] && CanRead(sh.state)
          && (sh.readRoom ==> sh.maxRecv - sh.recv < sh.maxRecv / 2))
  }

  predicate RecordOk(sh: Shared) {
    && WindowsOk(sh) && StateOk(sh) && ParkedOk(sh)
    && (!sh.activated ==> Untouched(sh))
  }

  ghost predicate RecordsOk(heap: map<Ref, Shared>) {
    forall r :: r in heap ==> RecordOk(heap[r])
  }

  predicate RegisteredAs(reg: Registry, id: StreamId, r: Ref) {
    (id in reg.streams && reg.streams[id] == r) || (id in reg.inactive && reg.inactive[id] == r)
  }

  /** The active ids are not inactive, and name activated records of their own. */
  ghost predicate StreamsOk(reg: Registry) {
    forall id :: id in reg.streams ==>
      && id !in reg.inactive
      && reg.streams[id] in reg.heap && reg.heap[reg.streams[id]].owner == id && reg.heap[reg.streams[id]].activated
  }

  ghost predicate InactiveOk(reg: Registry) {
    forall id :: id in reg.inactive ==>
      reg.inactive[id] in reg.heap && reg.heap[reg.inactive[id]].owner == id && !reg.heap[reg.inactive[id]].activated
  }

  /** Every record is the one registered under its id. */
  ghost predicate OwnersOk(reg: Registry) {
    forall r :: r in reg.heap ==> r < reg.nextRef && RegisteredAs(reg, reg.heap[r].owner, r)
  }

  ghost predicate RegistryOk(reg: Registry) { StreamsOk(reg) && InactiveOk(reg) && OwnersOk(reg) }

  /** Every live handle holds the record registered under its id. */
  ghost predicate HandlesOk(reg: Registry, handles: map<HandleId, Ref>) {
    forall h :: h in handles ==>
      RegisteredAs(reg, h.id, handles[h]) && handles[h] in reg.heap && reg.heap[handles[h]].claimed
  }

  ghost predicate QueuesOk(handles: map<HandleId, Ref>, queues: map<HandleId, Queue>, everOpened: set<HandleId>) {
    && (forall h :: h in handles ==> h in queues && queues[h].senderAlive)
    && (forall h :: h in queues ==> h in everOpened)
  }

  ghost predicate WaitersOpened(reg: Registry, everOpened: set<HandleId>) { reg.slotWaiters <= everOpened }

  /** Some handle of the id is alive, or its end of queue is still to come. */
  ghost predicate NoticeDue(queues: map<HandleId, Queue>, id: StreamId) { exists h :: h in queues && h.id == id }

  ghost predicate NoLeak(heap: map<Ref, Shared>, queues: map<HandleId, Queue>) {
    forall r :: r in heap && heap[r].claimed ==> NoticeDue(queues, heap[r].owner)
  }

  ghost predicate SlotsOk(reg: Registry, pendingWrite: Option<Frame>) {
    && |reg.owed| <= 1
    && (reg.owed != map[] ==> pendingWrite.None?)
    && ActiveSlots(reg) <= reg.cfg.maxStreams
    && (reg.slotWaiters != {} ==> ActiveSlots(reg) >= reg.cfg.maxStreams)
  }

  /** A handle waiting for a slot still has an inactive stream: the peer cannot
      have opened it meanwhile. */
  ghost predicate WaitersInactive(reg: Registry, handles: map<HandleId, Ref>) {
    forall h :: h in reg.slotWaiters && h in handles && handles[h] in reg.heap ==> !reg.heap[handles[h]].activated
  }

  ghost predicate BudgetOk(reg: Registry) {
    && ConfigOk(reg.cfg)
    && reg.accumulated == Total(reg.heap, reg.nextRef, Excess)
    && reg.accumulated <= Spare(reg.cfg)
    && |reg.streams| == Total(reg.heap, reg.nextRef, One)
  }

  predicate IsClose(f: Frame, id: StreamId) {
    f.header.tag.Data? && f.header.id == id && (f.header.flags.fin || f.header.flags.rst)
  }

  /** A frame this peer has sent, or will send without anyone's further help. */
  ghost predicate Outbound(p: Peer, f: Frame) {
    || f in p.hist.sent
    || f in p.drv.backlog
    || p.drv.pendingWrite == Some(f)
    || f in p.reg.owed.Values
    || Queued(p.queues, f)
  }

  ghost predicate Queued(queues: map<HandleId, Queue>, f: Frame) {
    exists h, i: nat :: h in queues && i < |queues[h].cmds| && CommandFrame(queues[h].cmds[i]) == f
  }

  /** A FIN or RST for the id is on the wire, queued or owed. */
  ghost predicate Told(p: Peer, id: StreamId) { exists f :: Outbound(p, f) && IsClose(f, id) }

  ghost predicate FinsTold(p: Peer) {
    forall r :: r in p.reg.heap && LocalFin in p.reg.heap[r].events ==> Told(p, p.reg.heap[r].owner)
  }

  /** Nothing waits for the closing future before there is one. */
  ghost predicate BacklogOk(drv: Driver) {
    drv.phase.Draining? || drv.phase.Flushing? || drv.backlog == []
  }

  ghost predicate Inv(p: Peer) {
    && RecordsOk(p.reg.heap) && RegistryOk(p.reg) && HandlesOk(p.reg, p.handles)
    && QueuesOk(p.handles, p.queues, p.hist.everOpened) && NoLeak(p.reg.heap, p.queues)
    && SlotsOk(p.reg, p.drv.pendingWrite) && WaitersInactive(p.reg, p.handles)
    && WaitersOpened(p.reg, p.hist.everOpened) && BudgetOk(p.reg) && FinsTold(p) && BacklogOk(p.drv)
  }

  // ----- what one local change of the registry keeps -----

  /** `q` is `p` up to what is known about one id and one record of that id. */
  ghost predicate Local(p: Registry, q: Registry, id: StreamId, r: Ref) {
    && q.cfg == p.cfg
    && AgreeExcept(p.heap, q.heap, r)
    && (forall i :: i != id ==> (i in p.streams <==> i in q.streams) && (i in p.streams ==> p.streams[i] == q.streams[i]))
    && (forall i :: i != id ==> (i in p.inactive <==> i in q.inactive) && (i in p.inactive ==> p.inactive[i] == q.inactive[i]))
    && (if r in p.heap then p.heap[r].owner == id else id !in p.streams && id !in p.inactive)
    && (r == p.nextRef || r in p.heap)
    && q.nextRef == (if r in p.heap then p.nextRef else p.nextRef + 1)
  }

  /** The id is in `q` where its record says. */
  ghost predicate Placed(q: Registry, id: StreamId, r: Ref) {
    && (r in q.heap ==> q.heap[r].owner == id)
    && (id in q.streams <==> r in q.heap && q.heap[r].activated) && (id in q.streams ==> q.streams[id] == r)
    && (id in q.inactive <==> r in q.heap && !q.heap[r].activated) && (id in q.inactive ==> q.inactive[id] == r)
  }

  lemma LocalRegistry(p: Registry, q: Registry, id: StreamId, r: Ref)
    requires RegistryOk(p) && Local(p, q, id, r) && Placed(q, id, r)
    ensures StreamsOk(q) && InactiveOk(q)
    ensures OwnersOk(q)
  {
    LocalStreams(p, q, id, r);
    LocalInactive(p, q, id, r);
    LocalOwners(p, q, id, r);
  }

  lemma LocalStreams(p: Registry, q: Registry, id: StreamId, r: Ref)
    requires RegistryOk(p) && Local(p, q, id, r) && Placed(q, id, r)
    ensures StreamsOk(q)
  {
    hide InactiveOk;
  }

  lemma LocalInactive(p: Registry, q: Registry, id: StreamId, r: Ref)
    requires RegistryOk(p) && Local(p, q, id, r) && Placed(q, id, r)
    ensures InactiveOk(q)
  {
    hide StreamsOk;
  }

  lemma LocalOwners(p: Registry, q: Registry, id: StreamId, r: Ref)
    requires RegistryOk(p) && Local(p, q, id, r) && Placed(q, id, r)
    ensures OwnersOk(q)
  {
    hide InactiveOk;
    forall x | x in q.heap ensures x < q.nextRef && RegisteredAs(q, q.heap[x].owner, x) {
      assert x == r || RegisteredAs(p, p.heap[x].owner, x);
    }
  }

  lemma LocalRecords(p: Registry, q: Registry, id: StreamId, r: Ref)
    requires RecordsOk(p.heap) && Local(p, q, id, r) && (r in q.heap ==> RecordOk(q.heap[r]))
    ensures RecordsOk(q.heap)
  {
    hide RecordOk;
  }

  /** Window given to one reference beyond the default, and the slot it holds. */
  lemma LocalBudget(p: Registry, q: Registry, id: StreamId, r: Ref)
    requires BudgetOk(p) && OwnersOk(p) && Local(p, q, id, r)
    requires q.accumulated - p.accumulated == At(q.heap, Excess, r) - At(p.heap, Excess, r)
    requires |q.streams| - |p.streams| == At(q.heap, One, r) - At(p.heap, One, r)
    requires q.accumulated <= Spare(q.cfg)
    ensures BudgetOk(q)
  {
    hide ConfigOk, Spare, RegisteredAs;
    TotalLocal(p.heap, q.heap, q.nextRef, Excess, r);
    TotalLocal(p.heap, q.heap, q.nextRef, One, r);
    if q.nextRef != p.nextRef { assert p.nextRef !in p.heap; }
  }

  lemma LocalHandles(p: Registry, q: Registry, handles: map<HandleId, Ref>, id: StreamId, r: Ref)
    requires RegistryOk(p) && HandlesOk(p, handles) && Local(p, q, id, r) && Placed(q, id, r)
    requires r in p.heap && r !in q.heap ==> !HeldByHandle(handles, r)
    requires r in p.heap && r in q.heap && p.heap[r].claimed ==> q.heap[r].claimed
    ensures HandlesOk(q, handles)
  {
  }

  lemma LocalWaiters(p: Registry, q: Registry, handles: map<HandleId, Ref>, id: StreamId, r: Ref)
    requires WaitersInactive(p, handles) && Local(p, q, id, r)
    requires q.slotWaiters == {} || (q.slotWaiters == p.slotWaiters && At(q.heap, One, r) <= At(p.heap, One, r))
    ensures WaitersInactive(q, handles)
  {
  }

  lemma LocalLeak(p: Registry, q: Registry, queues: map<HandleId, Queue>, id: StreamId, r: Ref)
    requires NoLeak(p.heap, queues) && Local(p, q, id, r) && (r in q.heap ==> q.heap[r].owner == id)
    requires r in q.heap && q.heap[r].claimed ==> (r in p.heap && p.heap[r].claimed) || NoticeDue(queues, id)
    ensures NoLeak(q.heap, queues)
  {
  }

  /** No frame of `p` gets lost on the way to `q`. */
  ghost predicate KeepsFrames(p: Peer, q: Peer) { forall f :: Outbound(p, f) ==> Outbound(q, f) }

  lemma ToldStays(p: Peer, q: Peer)
    requires KeepsFrames(p, q)
    ensures forall id :: Told(p, id) ==> Told(q, id)
  {
  }

  lemma LocalFins(p: Peer, q: Peer, id: StreamId, r: Ref)
    requires FinsTold(p) && Local(p.reg, q.reg, id, r) && KeepsFrames(p, q)
    requires r in q.reg.heap && LocalFin in q.reg.heap[r].events ==>
               (r in p.reg.heap && LocalFin in p.reg.heap[r].events && p.reg.heap[r].owner == q.reg.heap[r].owner) || Told(q, q.reg.heap[r].owner)
    ensures FinsTold(q)
  {
  }

  /** The slots of `q`, and who waits for them, are accounted for. */
  ghost predicate SlotsKept(p: Peer, q: Peer, id: StreamId, r: Ref) {
    && SlotsOk(q.reg, q.drv.pendingWrite)
    && |q.reg.streams| - |p.reg.streams| == At(q.reg.heap, One, r) - At(p.reg.heap, One, r)
    && (q.reg.slotWaiters == {} ||
        (q.reg.slotWaiters == p.reg.slotWaiters && At(q.reg.heap, One, r) <= At(p.reg.heap, One, r)))
    && q.reg.accumulated - p.reg.accumulated == At(q.reg.heap, Excess, r) - At(p.reg.heap, Excess, r)
    && q.reg.accumulated <= Spare(q.reg.cfg)
  }

  /** A live record stays claimed and stays told about; it goes only when no
      handle holds it. */
  ghost predicate RecordKept(p: Peer, q: Peer, id: StreamId, r: Ref) {
    && (r in q.reg.heap ==> RecordOk(q.reg.heap[r]))
    && (r in p.reg.heap && r !in q.reg.heap ==> !HeldByHandle(p.handles, r))
    && (r in p.reg.heap && r in q.reg.heap && p.reg.heap[r].claimed ==> q.reg.heap[r].claimed)
    && (r in q.reg.heap && q.reg.heap[r].claimed ==>
          (r in p.reg.heap && p.reg.heap[r].claimed) || NoticeDue(p.queues, id))
    && (r in q.reg.heap && LocalFin in q.reg.heap[r].events ==>
          (r in p.reg.heap && LocalFin in p.reg.heap[r].events) || Told(q, id))
  }

  /** Everything one local change of the registry keeps. */
  lemma LocalKeeps(p: Peer, q: Peer, id: StreamId, r: Ref)
    requires Inv(p) && Local(p.reg, q.reg, id, r) && Placed(q.reg, id, r)
    requires SlotsKept(p, q, id, r) && RecordKept(p, q, id, r) && KeepsFrames(p, q)
    requires q.handles == p.handles && q.queues == p.queues && q.drv == p.drv && q.hist.everOpened == p.hist.everOpened
    ensures Inv(q)
  {
    hide RecordsOk, RecordOk, StreamsOk, InactiveOk, OwnersOk, HandlesOk, QueuesOk, NoLeak, SlotsOk, WaitersInactive,
         BudgetOk, FinsTold, Told, Total, Spare, KeepsFrames, Local, HeldByHandle, NoticeDue;
    LocalRegistry(p.reg, q.reg, id, r);
    LocalRecords(p.reg, q.reg, id, r);
    LocalBudget(p.reg, q.reg, id, r);
    LocalHandles(p.reg, q.reg, p.handles, id, r);
    LocalWaiters(p.reg, q.reg, p.handles, id, r);
    LocalLeak(p.reg, q.reg, p.queues, id, r);
    assert r in p.reg.heap ==> p.reg.heap[r].owner == id by { LocalOwner(p.reg, q.reg, id, r); }
    LocalFins(p, q, id, r);
  }

  lemma LocalOwner(p: Registry, q: Registry, id: StreamId, r: Ref)
    requires Local(p, q, id, r)
    ensures r in p.heap ==> p.heap[r].owner == id
  {
  }

  /** Replacing a live record by one of the same identity. */
  ghost predicate Rewrites(p: Peer, q: Peer, r: Ref, sh: Shared) {
    && r in p.reg.heap && RecordOk(sh)
    && sh.owner == p.reg.heap[r].owner && sh.activated == p.reg.heap[r].activated && (p.reg.heap[r].claimed ==> sh.claimed)
    && q.reg == SetShared(p.reg, r, sh).(accumulated := q.reg.accumulated)
    && q.reg.accumulated == p.reg.accumulated + sh.maxRecv - p.reg.heap[r].maxRecv <= Spare(p.reg.cfg)
    && q.handles == p.handles && q.queues == p.queues && q.drv == p.drv
    && q.hist.everOpened == p.hist.everOpened && q.hist.sent == p.hist.sent
  }

  lemma RewriteIsLocal(p: Peer, q: Peer, r: Ref, sh: Shared)
    requires RegistryOk(p.reg) && Rewrites(p, q, r, sh)
    ensures Local(p.reg, q.reg, sh.owner, r) && Placed(q.reg, sh.owner, r)
  {
  }

  lemma RewriteKeeps(p: Peer, q: Peer, r: Ref, sh: Shared)
    requires Inv(p) && Rewrites(p, q, r, sh)
    requires sh.claimed ==> p.reg.heap[r].claimed || NoticeDue(p.queues, sh.owner)
    requires LocalFin in sh.events ==> LocalFin in p.reg.heap[r].events || Told(p, sh.owner)
    ensures Inv(q)
  {
    hide RecordsOk, RecordOk, RegistryOk, HandlesOk, QueuesOk, NoLeak, WaitersInactive, BudgetOk, FinsTold, Spare, NoticeDue, HeldByHandle;
    RewriteIsLocal(p, q, r, sh);
    assert KeepsFrames(p, q);
    ToldStays(p, q);
    hide Told, KeepsFrames, Local, Placed;
    LocalKeeps(p, q, sh.owner, r);
  }
}
