/** One stream id seen from both ends at once. The frames from one end to the
    other form a single queue: those on the link, then those the sending peer has
    queued. Moving a frame along that path is invisible here, so only the steps
    that create, consume or act on frames remain. Each id is opened at most once
    on each side, by one handle. */
module LaneModel {
  import opened Frames
  import opened Basics
  import opened StreamModel

  /** Absent: no record. Idle: a local handle's inactive record. Live: active. */
  datatype Stage = Absent | Idle | Live

  /** One peer's share of the stream. `early` says that the handle was closed while
      the stream was idle, `gotEnd` that a FIN or RST has arrived. */
  datatype End = End(
    stage: Stage, st: State, recv: int, max: int, send: int, buffer: seq<byte>, synPending: bool,
    early: bool, gotEnd: bool,
    hasHandle: bool, hasQueue: bool, everOpened: bool, reaped: bool, listening: bool, sending: bool,
    written: seq<byte>, read: seq<byte>)

  // ----- frame queues -----

  predicate IsSyn(f: Frame) { f.header.tag.Data? && f.header.flags.syn }

  predicate IsEnd(f: Frame) { f.header.tag.Data? && (f.header.flags.fin || f.header.flags.rst) }

  function BodyOf(f: Frame): seq<byte> { if f.header.tag.Data? then f.body else [] }

  function CreditOf(f: Frame): int { if f.header.tag.WindowUpdate? then f.header.length else 0 }

  /** The frames a stream sends: a close frame is empty and no SYN, credit is
      positive. */
  predicate LaneFrame(f: Frame) {
    && (f.header.tag.Data? || f.header.tag.WindowUpdate?)
    && (IsEnd(f) ==> f.body == [] && !f.header.flags.syn)
    && CreditOf(f) >= 0
  }

  function Bytes(P: seq<Frame>): seq<byte> {
    if P == [] then [] else BodyOf(P[0]) + Bytes(P[1..])
  }

  function Credit(P: seq<Frame>): int {
    if P == [] then 0 else CreditOf(P[0]) + Credit(P[1..])
  }

  predicate NoSyn(P: seq<Frame>) { forall i :: 0 <= i < |P| ==> !IsSyn(P[i]) }

  predicate NoEnd(P: seq<Frame>) { forall i :: 0 <= i < |P| ==> !IsEnd(P[i]) }

  predicate SynFirst(P: seq<Frame>) { P != [] && IsSyn(P[0]) && NoSyn(P[1..]) }

  /** Nothing but empty bodies follows a close frame. */
  predicate EndsLast(P: seq<Frame>) {
    P != [] ==> EndsLast(P[1..]) && (IsEnd(P[0]) ==> Bytes(P[1..]) == [])
  }

  predicate LaneFrames(P: seq<Frame>) { forall i :: 0 <= i < |P| ==> LaneFrame(P[i]) }

  lemma {:induction false} Append(P: seq<Frame>, f: Frame)
    ensures Bytes(P + [f]) == Bytes(P) + BodyOf(f)
    ensures Credit(P + [f]) == Credit(P) + CreditOf(f)
    ensures EndsLast(P) && (NoEnd(P) || BodyOf(f) == []) ==> EndsLast(P + [f])
  {
    if P != [] {
      assert (P + [f])[1..] == P[1..] + [f];
      Append(P[1..], f);
      if EndsLast(P) && IsEnd(P[0]) { assert Bytes(P[1..] + [f]) == Bytes(P[1..]) + BodyOf(f); }
    }
  }

  lemma {:induction false} CreditIsPositive(P: seq<Frame>)
    requires LaneFrames(P)
    ensures Credit(P) >= 0
  {
    if P != [] { CreditIsPositive(P[1..]); }
  }

  // ----- the state of one end -----

  predicate Fresh(x: End) {
    x.recv == x.max == x.send == DEFAULT_CREDIT && x.buffer == [] && !x.synPending
  }

  predicate EndOk(x: End) {
    && DEFAULT_CREDIT <= x.max <= U32_MAX && 0 <= x.recv && x.recv + |x.buffer| <= x.max && 0 <= x.send <= U32_MAX
    && (x.stage != Live ==> Fresh(x) && !x.gotEnd)
    && (x.stage == Absent ==> x.st == Open)
    && (x.stage == Idle ==> x.st == (if x.early then SendClosed else Open) || !x.sending)
    && (x.hasHandle ==> x.hasQueue && x.stage != Absent && !x.reaped)
    && (x.hasQueue ==> x.everOpened && !x.reaped)
    && (x.reaped || x.early ==> x.everOpened)
    && (x.early && x.hasHandle ==> !CanWrite(x.st))
    && (x.listening ==> x.sending)
    && (x.gotEnd ==> !CanRead(x.st))
    && (!CanRead(x.st) && x.sending ==> x.gotEnd)
    && (!x.reaped && x.stage != Live ==> x.written == [] && x.read == [])
    && (x.synPending ==> x.written == [] && (x.sending ==> x.early && !CanWrite(x.st)))
  }

  /** A second record for an id that was reaped: a late SYN created it, nobody
      will ever claim it. */
  predicate Zombie(x: End) { x.reaped && x.stage == Live }

  function SendBudget(x: End): int { if x.reaped then 0 else x.send }

  // ----- one direction: x sends to y over P, and y to x over Q -----

  /** Not a byte is lost, added or reordered. */
  predicate Delivery(x: End, y: End, P: seq<Frame>) {
    && (!y.reaped && y.sending ==> x.written == y.read + y.buffer + Bytes(P))
    && (!y.reaped ==> |y.read| + |y.buffer| + |Bytes(P)| <= |x.written|)
  }

  /** The receiver's window is the sender's window plus what is under way. */
  predicate Balance(x: End, y: End, P: seq<Frame>, Q: seq<Frame>) {
    && (!x.reaped && !y.reaped && x.sending && y.sending ==> y.recv == x.send + |Bytes(P)| + Credit(Q))
    && (!y.reaped || y.stage == Live ==> y.recv >= SendBudget(x) + |Bytes(P)| + Credit(Q))
    && (x.stage == Live ==> x.send + Credit(Q) <= U32_MAX)
  }

  /** The frame that opens the stream comes first, and before any reply. */
  predicate SynOrder(x: End, y: End, P: seq<Frame>, Q: seq<Frame>) {
    && (NoSyn(P) || SynFirst(P))
    && (!NoSyn(P) ==>
          && !x.synPending && x.written == Bytes(P) && |Bytes(P)| + SendBudget(x) <= DEFAULT_CREDIT
          && Credit(Q) == 0 && y.recv == y.max == DEFAULT_CREDIT && y.buffer == [] && y.read == [])
  }

  /** Until the receiver has a record, only the opening frame can be next. */
  predicate Entry(x: End, y: End, P: seq<Frame>) {
    y.stage != Live && !y.reaped ==>
      && x.recv == x.max == DEFAULT_CREDIT && x.buffer == [] && x.read == [] && Credit(P) == 0
      && (y.sending ==>
            && (x.stage == Live ==> SynFirst(P) || x.synPending)
            && (P != [] ==> SynFirst(P) || (x.early && Bytes(P) == [])))
  }

  /** An inactive stream sends nothing, and one closed while inactive never says SYN. */
  predicate Started(x: End, P: seq<Frame>) {
    && (x.stage != Live && !x.reaped ==> P == [])
    && (x.early ==> NoSyn(P))
  }

  /** After a FIN or RST the sender adds nothing, and the receiver has it all. */
  predicate EndOrder(x: End, y: End, P: seq<Frame>) {
    && EndsLast(P)
    && (!NoEnd(P) || y.gotEnd ==> x.reaped || (x.stage == Live && !CanWrite(x.st)))
    && (y.gotEnd ==> Bytes(P) == [])
  }

  /** Total credit the receiver has granted so far. */
  function GrantedTotal(y: End): int { y.recv + |y.read| + |y.buffer| - DEFAULT_CREDIT }

  /** How much had been read when credit was last granted. */
  function ReadAtGrant(y: End): int { y.recv + |y.buffer| - y.max + |y.read| }

  /** While the opening frame of the reverse direction is under way, or has made
      a zombie, the sender has had no credit beyond the default; so little was
      received that the window has grown at most twice. */
  predicate Bounds(x: End, y: End, P: seq<Frame>, Q: seq<Frame>) {
    !NoSyn(Q) || Zombie(x) ==>
      && |x.written| + SendBudget(x) <= DEFAULT_CREDIT
      && (!y.reaped ==>
            && y.max <= 4 * DEFAULT_CREDIT && ReadAtGrant(y) >= 0
            && (y.max > DEFAULT_CREDIT ==> 2 * ReadAtGrant(y) >= DEFAULT_CREDIT)
            && (y.max > 2 * DEFAULT_CREDIT ==> ReadAtGrant(y) >= DEFAULT_CREDIT)
            && Credit(Q) + (if Zombie(x) then x.send - DEFAULT_CREDIT else 0) <= GrantedTotal(y))
      && Credit(Q) + (if Zombie(x) then x.send - DEFAULT_CREDIT else 0) <= 4 * DEFAULT_CREDIT
  }

  predicate Dir(x: End, y: End, P: seq<Frame>, Q: seq<Frame>) {
    && LaneFrames(P) && Delivery(x, y, P) && Balance(x, y, P, Q) && SynOrder(x, y, P, Q)
    && Entry(x, y, P) && Started(x, P) && EndOrder(x, y, P) && Bounds(x, y, P, Q)
  }

  predicate LaneInv(x: End, y: End, P: seq<Frame>, Q: seq<Frame>) {
    EndOk(x) && EndOk(y) && Dir(x, y, P, Q) && Dir(y, x, Q, P)
  }

  // ----- steps of one end -----

  function Opened(x: End): End {
    x.(stage := if x.stage == Absent then Idle else x.stage, hasHandle := true, hasQueue := true, everOpened := true)
  }

  function Claimed(x: End): End { x.(stage := Live, synPending := true) }

  function Wrote(x: End, body: seq<byte>): End {
    x.(send := x.send - |body|, synPending := false, written := x.written + body)
  }

  function ShutIdle(x: End): End { x.(st := UpdateState(x.st, SendClosed), early := true) }

  function ShutLive(x: End): End { x.(st := UpdateState(x.st, SendClosed)) }

  function Topped(x: End, credit: int, newMax: int): End { x.(recv := x.recv + credit, max := newMax) }

  function Took(x: End, k: int): End
    requires 0 <= k <= |x.buffer|
  {
    x.(buffer := x.buffer[k..], read := x.read + x.buffer[..k])
  }

  function Gone(x: End): End {
    x.(stage := Absent, st := Open, recv := DEFAULT_CREDIT, max := DEFAULT_CREDIT, send := DEFAULT_CREDIT, buffer := [],
       synPending := false, gotEnd := false, hasHandle := false, hasQueue := false)
  }

  function Admitted(x: End): End { x.(stage := Live) }

  function Delivered(x: End, f: Frame): End {
    x.(recv := x.recv - |f.body|, buffer := x.buffer + f.body,
       st := if f.header.flags.fin then UpdateState(x.st, RecvClosed) else x.st, gotEnd := x.gotEnd || f.header.flags.fin)
  }

  function WasReset(x: End): End { x.(st := Closed, gotEnd := true) }

  function Credited(x: End, c: int): End { x.(send := x.send + c) }

  function Stopped(x: End): End {
    x.(st := if x.stage == Absent then x.st else UpdateState(x.st, RecvClosed), listening := false, sending := false)
  }

  // ----- every step keeps the invariant -----

  predicate IsData(f: Frame) { f.header.tag.Data? && !IsEnd(f) }

  predicate Affords(x: End, f: Frame) { x.hasHandle && x.sending && CanWrite(x.st) && |f.body| <= x.send && CreditOf(f) >= 0 }

  predicate Leaving(x: End) { x.stage == Live && !x.hasHandle && x.hasQueue && x.listening }

  predicate Opens(x: End, z: End) {
    z == Opened(x) && !x.everOpened && x.listening
  }

  lemma OpensForward(x: End, z: End, y: End, P: seq<Frame>, Q: seq<Frame>)
    requires LaneInv(x, y, P, Q) && Opens(x, z)
    ensures EndOk(z) && Dir(z, y, P, Q)
  {
  }

  lemma OpensBackward(x: End, z: End, y: End, P: seq<Frame>, Q: seq<Frame>)
    requires LaneInv(x, y, P, Q) && Opens(x, z)
    ensures Dir(y, z, Q, P)
  {
  }

  predicate Claims(x: End, z: End) {
    z == Claimed(x) && x.stage == Idle && x.hasHandle && (x.sending ==> !CanWrite(x.st))
  }

  lemma ClaimsForward(x: End, z: End, y: End, P: seq<Frame>, Q: seq<Frame>)
    requires LaneInv(x, y, P, Q) && Claims(x, z)
    ensures EndOk(z) && Dir(z, y, P, Q)
  {
  }

  lemma ClaimsBackward(x: End, z: End, y: End, P: seq<Frame>, Q: seq<Frame>)
    requires LaneInv(x, y, P, Q) && Claims(x, z)
    ensures Dir(y, z, Q, P)
  {
  }

  predicate ShutsIdle(x: End, z: End) {
    z == ShutIdle(x) && x.stage == Idle && x.hasHandle
  }

  lemma ShutsIdleForward(x: End, z: End, y: End, P: seq<Frame>, Q: seq<Frame>)
    requires LaneInv(x, y, P, Q) && ShutsIdle(x, z)
    ensures EndOk(z) && Dir(z, y, P, Q)
  {
  }

  lemma ShutsIdleBackward(x: End, z: End, y: End, P: seq<Frame>, Q: seq<Frame>)
    requires LaneInv(x, y, P, Q) && ShutsIdle(x, z)
    ensures Dir(y, z, Q, P)
  {
  }

  predicate LetsGo(x: End, z: End) {
    z == x.(hasHandle := z.hasHandle, hasQueue := z.hasQueue, listening := z.listening)
    && (z.hasHandle ==> x.hasHandle && z.hasQueue) && (z.hasQueue ==> x.hasQueue) && (z.listening ==> x.listening)
  }

  lemma LetsGoForward(x: End, z: End, y: End, P: seq<Frame>, Q: seq<Frame>)
    requires LaneInv(x, y, P, Q) && LetsGo(x, z)
    ensures EndOk(z) && Dir(z, y, P, Q)
  {
  }

  lemma LetsGoBackward(x: End, z: End, y: End, P: seq<Frame>, Q: seq<Frame>)
    requires LaneInv(x, y, P, Q) && LetsGo(x, z)
    ensures Dir(y, z, Q, P)
  {
  }

  predicate Stops(x: End, z: End) {
    z == Stopped(x)
  }

  lemma StopsForwardFlow(x: End, z: End, y: End, P: seq<Frame>, Q: seq<Frame>)
    requires LaneInv(x, y, P, Q) && Stops(x, z)
    ensures EndOk(z) && LaneFrames(P) && Delivery(z, y, P) && Balance(z, y, P, Q)
  {
  }

  lemma StopsForwardOrder(x: End, z: End, y: End, P: seq<Frame>, Q: seq<Frame>)
    requires LaneInv(x, y, P, Q) && Stops(x, z)
    ensures SynOrder(z, y, P, Q) && Entry(z, y, P) && Started(z, P) && EndOrder(z, y, P) && Bounds(z, y, P, Q)
  {
  }

  lemma StopsForward(x: End, z: End, y: End, P: seq<Frame>, Q: seq<Frame>)
    requires LaneInv(x, y, P, Q) && Stops(x, z)
    ensures EndOk(z) && Dir(z, y, P, Q)
  {
    hide EndOk, Delivery, Balance, SynOrder, Entry, Started, EndOrder, Bounds, LaneFrames;
    StopsForwardFlow(x, z, y, P, Q);
    StopsForwardOrder(x, z, y, P, Q);
  }

  lemma StopsBackward(x: End, z: End, y: End, P: seq<Frame>, Q: seq<Frame>)
    requires LaneInv(x, y, P, Q) && Stops(x, z)
    ensures Dir(y, z, Q, P)
  {
  }

  predicate Takes(x: End, z: End, k: int) {
    0 <= k <= |x.buffer| && z == Took(x, k)
  }

  lemma TakesForwardFlow(x: End, z: End, y: End, P: seq<Frame>, Q: seq<Frame>, k: int)
    requires LaneInv(x, y, P, Q) && Takes(x, z, k)
    ensures EndOk(z) && LaneFrames(P) && Delivery(z, y, P) && Balance(z, y, P, Q)
  {
  }

  lemma TakesForwardOrder(x: End, z: End, y: End, P: seq<Frame>, Q: seq<Frame>, k: int)
    requires LaneInv(x, y, P, Q) && Takes(x, z, k)
    ensures SynOrder(z, y, P, Q) && Entry(z, y, P) && Started(z, P) && EndOrder(z, y, P) && Bounds(z, y, P, Q)
  {
  }

  lemma TakesForward(x: End, z: End, y: End, P: seq<Frame>, Q: seq<Frame>, k: int)
    requires LaneInv(x, y, P, Q) && Takes(x, z, k)
    ensures EndOk(z) && Dir(z, y, P, Q)
  {
    hide EndOk, Delivery, Balance, SynOrder, Entry, Started, EndOrder, Bounds, LaneFrames;
    TakesForwardFlow(x, z, y, P, Q, k);
    TakesForwardOrder(x, z, y, P, Q, k);
  }

  lemma TakesBackwardFlow(x: End, z: End, y: End, P: seq<Frame>, Q: seq<Frame>, k: int)
    requires LaneInv(x, y, P, Q) && Takes(x, z, k)
    ensures LaneFrames(Q) && Delivery(y, z, Q) && Balance(y, z, Q, P)
  {
  }

  lemma TakesBackwardOrder(x: End, z: End, y: End, P: seq<Frame>, Q: seq<Frame>, k: int)
    requires LaneInv(x, y, P, Q) && Takes(x, z, k)
    ensures SynOrder(y, z, Q, P) && Entry(y, z, Q) && Started(y, Q) && EndOrder(y, z, Q) && Bounds(y, z, Q, P)
  {
  }

  lemma TakesBackward(x: End, z: End, y: End, P: seq<Frame>, Q: seq<Frame>, k: int)
    requires LaneInv(x, y, P, Q) && Takes(x, z, k)
    ensures Dir(y, z, Q, P)
  {
    hide EndOk, Delivery, Balance, SynOrder, Entry, Started, EndOrder, Bounds, LaneFrames;
    TakesBackwardFlow(x, z, y, P, Q, k);
    TakesBackwardOrder(x, z, y, P, Q, k);
  }

  predicate LeavesIdle(x: End, z: End) {
    z == Gone(x) && x.stage == Idle && !x.hasHandle && x.hasQueue && x.listening
  }

  lemma LeavesIdleForward(x: End, z: End, y: End, P: seq<Frame>, Q: seq<Frame>)
    requires LaneInv(x, y, P, Q) && LeavesIdle(x, z)
    ensures EndOk(z) && Dir(z, y, P, Q)
  {
  }

  lemma LeavesIdleBackward(x: End, z: End, y: End, P: seq<Frame>, Q: seq<Frame>)
    requires LaneInv(x, y, P, Q) && LeavesIdle(x, z)
    ensures Dir(y, z, Q, P)
  {
  }

  predicate LeavesQuietly(x: End, z: End) {
    z == Gone(x).(reaped := true) && Leaving(x) && !CanWrite(x.st)
  }

  lemma LeavesQuietlyForward(x: End, z: End, y: End, P: seq<Frame>, Q: seq<Frame>)
    requires LaneInv(x, y, P, Q) && LeavesQuietly(x, z)
    ensures EndOk(z) && Dir(z, y, P, Q)
  {
  }

  lemma LeavesQuietlyBackward(x: End, z: End, y: End, P: seq<Frame>, Q: seq<Frame>)
    requires LaneInv(x, y, P, Q) && LeavesQuietly(x, z)
    ensures Dir(y, z, Q, P)
  {
  }

  predicate OpensWithData(x: End, z: End, f: Frame) {
    z == Wrote(Claimed(x), f.body) && x.stage == Idle && IsData(f) && IsSyn(f) && Affords(x, f)
  }

  lemma OpensWithDataForward(x: End, z: End, y: End, P: seq<Frame>, Q: seq<Frame>, f: Frame)
    requires LaneInv(x, y, P, Q) && OpensWithData(x, z, f)
    ensures EndOk(z) && Dir(z, y, P + [f], Q)
  {
    Append(P, f);
    assert P + [f] == [f];
  }

  lemma OpensWithDataBackward(x: End, z: End, y: End, P: seq<Frame>, Q: seq<Frame>, f: Frame)
    requires LaneInv(x, y, P, Q) && OpensWithData(x, z, f)
    ensures Dir(y, z, Q, P + [f])
  {
    Append(P, f);
    assert P + [f] == [f];
  }

  predicate Writes(x: End, z: End, f: Frame) {
    z == Wrote(x, f.body) && x.stage == Live && IsData(f) && !IsSyn(f) && Affords(x, f)
  }

  lemma WritesForwardFlow(x: End, z: End, y: End, P: seq<Frame>, Q: seq<Frame>, f: Frame)
    requires LaneInv(x, y, P, Q) && Writes(x, z, f)
    ensures EndOk(z) && LaneFrames(P + [f]) && Delivery(z, y, P + [f]) && Balance(z, y, P + [f], Q)
  {
    Append(P, f);
  }

  lemma WritesForwardOrder(x: End, z: End, y: End, P: seq<Frame>, Q: seq<Frame>, f: Frame)
    requires LaneInv(x, y, P, Q) && Writes(x, z, f)
    ensures SynOrder(z, y, P + [f], Q) && Entry(z, y, P + [f]) && Started(z, P + [f])
  {
    Append(P, f);
  }

  lemma WritesForwardEnd(x: End, z: End, y: End, P: seq<Frame>, Q: seq<Frame>, f: Frame)
    requires LaneInv(x, y, P, Q) && Writes(x, z, f)
    ensures EndOrder(z, y, P + [f]) && Bounds(z, y, P + [f], Q)
  {
    Append(P, f);
  }

  lemma WritesForward(x: End, z: End, y: End, P: seq<Frame>, Q: seq<Frame>, f: Frame)
    requires LaneInv(x, y, P, Q) && Writes(x, z, f)
    ensures EndOk(z) && Dir(z, y, P + [f], Q)
  {
    hide EndOk, Delivery, Balance, SynOrder, Entry, Started, EndOrder, Bounds, LaneFrames;
    WritesForwardFlow(x, z, y, P, Q, f);
    WritesForwardOrder(x, z, y, P, Q, f);
    WritesForwardEnd(x, z, y, P, Q, f);
  }

  lemma WritesBackward(x: End, z: End, y: End, P: seq<Frame>, Q: seq<Frame>, f: Frame)
    requires LaneInv(x, y, P, Q) && Writes(x, z, f)
    ensures Dir(y, z, Q, P + [f])
  {
    Append(P, f);
  }

  predicate Shuts(x: End, z: End, f: Frame) {
    z == ShutLive(x) && x.stage == Live && x.hasHandle && x.sending && !x.st.Closed? && f == FinFrame(f.header.id)
  }

  lemma ShutsForwardFlow(x: End, z: End, y: End, P: seq<Frame>, Q: seq<Frame>, f: Frame)
    requires LaneInv(x, y, P, Q) && Shuts(x, z, f)
    ensures EndOk(z) && LaneFrames(P + [f]) && Delivery(z, y, P + [f]) && Balance(z, y, P + [f], Q)
  {
    Append(P, f);
  }

  lemma ShutsForwardOrder(x: End, z: End, y: End, P: seq<Frame>, Q: seq<Frame>, f: Frame)
    requires LaneInv(x, y, P, Q) && Shuts(x, z, f)
    ensures SynOrder(z, y, P + [f], Q) && Entry(z, y, P + [f]) && Started(z, P + [f])
  {
    Append(P, f);
  }

  lemma ShutsForwardEnd(x: End, z: End, y: End, P: seq<Frame>, Q: seq<Frame>, f: Frame)
    requires LaneInv(x, y, P, Q) && Shuts(x, z, f)
    ensures EndOrder(z, y, P + [f]) && Bounds(z, y, P + [f], Q)
  {
    Append(P, f);
  }

  lemma ShutsForward(x: End, z: End, y: End, P: seq<Frame>, Q: seq<Frame>, f: Frame)
    requires LaneInv(x, y, P, Q) && Shuts(x, z, f)
    ensures EndOk(z) && Dir(z, y, P + [f], Q)
  {
    hide EndOk, Delivery, Balance, SynOrder, Entry, Started, EndOrder, Bounds, LaneFrames;
    ShutsForwardFlow(x, z, y, P, Q, f);
    ShutsForwardOrder(x, z, y, P, Q, f);
    ShutsForwardEnd(x, z, y, P, Q, f);
  }

  lemma ShutsBackward(x: End, z: End, y: End, P: seq<Frame>, Q: seq<Frame>, f: Frame)
    requires LaneInv(x, y, P, Q) && Shuts(x, z, f)
    ensures Dir(y, z, Q, P + [f])
  {
    Append(P, f);
  }

  predicate Grants(x: End, z: End, f: Frame) {
    x.stage == Live && x.hasHandle && x.sending && CanRead(x.st)
    && x.max <= z.max <= 2 * x.max && z.max <= U32_MAX && x.max - x.recv - |x.buffer| >= x.max / 2
    && z == Topped(x, z.max - x.recv - |x.buffer|, z.max) && f == CreditFrame(f.header.id, z.recv - x.recv)
  }

  lemma GrantsForwardFlow(x: End, z: End, y: End, P: seq<Frame>, Q: seq<Frame>, f: Frame)
    requires LaneInv(x, y, P, Q) && Grants(x, z, f)
    ensures EndOk(z) && LaneFrames(P + [f]) && Delivery(z, y, P + [f]) && Balance(z, y, P + [f], Q)
  {
    Append(P, f);
  }

  lemma GrantsForwardOrder(x: End, z: End, y: End, P: seq<Frame>, Q: seq<Frame>, f: Frame)
    requires LaneInv(x, y, P, Q) && Grants(x, z, f)
    ensures SynOrder(z, y, P + [f], Q) && Entry(z, y, P + [f]) && Started(z, P + [f]) && EndOrder(z, y, P + [f]) && Bounds(z, y, P + [f], Q)
  {
    Append(P, f);
  }

  lemma GrantsForward(x: End, z: End, y: End, P: seq<Frame>, Q: seq<Frame>, f: Frame)
    requires LaneInv(x, y, P, Q) && Grants(x, z, f)
    ensures EndOk(z) && Dir(z, y, P + [f], Q)
  {
    hide EndOk, Delivery, Balance, SynOrder, Entry, Started, EndOrder, Bounds, LaneFrames;
    GrantsForwardFlow(x, z, y, P, Q, f);
    GrantsForwardOrder(x, z, y, P, Q, f);
  }

  lemma GrantsBackwardFlow(x: End, z: End, y: End, P: seq<Frame>, Q: seq<Frame>, f: Frame)
    requires LaneInv(x, y, P, Q) && Grants(x, z, f)
    ensures LaneFrames(Q) && Delivery(y, z, Q) && Balance(y, z, Q, P + [f])
  {
    Append(P, f);
  }

  lemma GrantsBackwardOrder(x: End, z: End, y: End, P: seq<Frame>, Q: seq<Frame>, f: Frame)
    requires LaneInv(x, y, P, Q) && Grants(x, z, f)
    ensures SynOrder(y, z, Q, P + [f]) && Entry(y, z, Q) && Started(y, Q)
  {
    Append(P, f);
  }

  lemma GrantsBackwardEnd(x: End, z: End, y: End, P: seq<Frame>, Q: seq<Frame>, f: Frame)
    requires LaneInv(x, y, P, Q) && Grants(x, z, f)
    ensures EndOrder(y, z, Q) && Bounds(y, z, Q, P + [f])
  {
    Append(P, f);
  }

  lemma GrantsBackward(x: End, z: End, y: End, P: seq<Frame>, Q: seq<Frame>, f: Frame)
    requires LaneInv(x, y, P, Q) && Grants(x, z, f)
    ensures Dir(y, z, Q, P + [f])
  {
    hide EndOk, Delivery, Balance, SynOrder, Entry, Started, EndOrder, Bounds, LaneFrames;
    GrantsBackwardFlow(x, z, y, P, Q, f);
    GrantsBackwardOrder(x, z, y, P, Q, f);
    GrantsBackwardEnd(x, z, y, P, Q, f);
  }

  predicate LeavesOpen(x: End, z: End, f: Frame) {
    z == Gone(x).(reaped := true) && Leaving(x) && x.st.Open? && f == RstFrame(f.header.id)
  }

  lemma LeavesOpenForwardFlow(x: End, z: End, y: End, P: seq<Frame>, Q: seq<Frame>, f: Frame)
    requires LaneInv(x, y, P, Q) && LeavesOpen(x, z, f)
    ensures EndOk(z) && LaneFrames(P + [f]) && Delivery(z, y, P + [f]) && Balance(z, y, P + [f], Q)
  {
    Append(P, f);
  }

  lemma LeavesOpenForwardOrder(x: End, z: End, y: End, P: seq<Frame>, Q: seq<Frame>, f: Frame)
    requires LaneInv(x, y, P, Q) && LeavesOpen(x, z, f)
    ensures SynOrder(z, y, P + [f], Q) && Entry(z, y, P + [f]) && Started(z, P + [f])
  {
    Append(P, f);
  }

  lemma LeavesOpenForwardEnd(x: End, z: End, y: End, P: seq<Frame>, Q: seq<Frame>, f: Frame)
    requires LaneInv(x, y, P, Q) && LeavesOpen(x, z, f)
    ensures EndOrder(z, y, P + [f]) && Bounds(z, y, P + [f], Q)
  {
    Append(P, f);
  }

  lemma LeavesOpenForward(x: End, z: End, y: End, P: seq<Frame>, Q: seq<Frame>, f: Frame)
    requires LaneInv(x, y, P, Q) && LeavesOpen(x, z, f)
    ensures EndOk(z) && Dir(z, y, P + [f], Q)
  {
    hide EndOk, Delivery, Balance, SynOrder, Entry, Started, EndOrder, Bounds, LaneFrames;
    LeavesOpenForwardFlow(x, z, y, P, Q, f);
    LeavesOpenForwardOrder(x, z, y, P, Q, f);
    LeavesOpenForwardEnd(x, z, y, P, Q, f);
  }

  lemma LeavesOpenBackward(x: End, z: End, y: End, P: seq<Frame>, Q: seq<Frame>, f: Frame)
    requires LaneInv(x, y, P, Q) && LeavesOpen(x, z, f)
    ensures Dir(y, z, Q, P + [f])
  {
    Append(P, f);
  }

  predicate LeavesHalfClosed(x: End, z: End, f: Frame) {
    z == Gone(x).(reaped := true) && Leaving(x) && x.st.RecvClosed? && f == FinFrame(f.header.id)
  }

  lemma LeavesHalfClosedForwardFlow(x: End, z: End, y: End, P: seq<Frame>, Q: seq<Frame>, f: Frame)
    requires LaneInv(x, y, P, Q) && LeavesHalfClosed(x, z, f)
    ensures EndOk(z) && LaneFrames(P + [f]) && Delivery(z, y, P + [f]) && Balance(z, y, P + [f], Q)
  {
    Append(P, f);
  }

  lemma LeavesHalfClosedForwardOrder(x: End, z: End, y: End, P: seq<Frame>, Q: seq<Frame>, f: Frame)
    requires LaneInv(x, y, P, Q) && LeavesHalfClosed(x, z, f)
    ensures SynOrder(z, y, P + [f], Q) && Entry(z, y, P + [f]) && Started(z, P + [f])
  {
    Append(P, f);
  }

  lemma LeavesHalfClosedForwardEnd(x: End, z: End, y: End, P: seq<Frame>, Q: seq<Frame>, f: Frame)
    requires LaneInv(x, y, P, Q) && LeavesHalfClosed(x, z, f)
    ensures EndOrder(z, y, P + [f]) && Bounds(z, y, P + [f], Q)
  {
    Append(P, f);
  }

  lemma LeavesHalfClosedForward(x: End, z: End, y: End, P: seq<Frame>, Q: seq<Frame>, f: Frame)
    requires LaneInv(x, y, P, Q) && LeavesHalfClosed(x, z, f)
    ensures EndOk(z) && Dir(z, y, P + [f], Q)
  {
    hide EndOk, Delivery, Balance, SynOrder, Entry, Started, EndOrder, Bounds, LaneFrames;
    LeavesHalfClosedForwardFlow(x, z, y, P, Q, f);
    LeavesHalfClosedForwardOrder(x, z, y, P, Q, f);
    LeavesHalfClosedForwardEnd(x, z, y, P, Q, f);
  }

  lemma LeavesHalfClosedBackward(x: End, z: End, y: End, P: seq<Frame>, Q: seq<Frame>, f: Frame)
    requires LaneInv(x, y, P, Q) && LeavesHalfClosed(x, z, f)
    ensures Dir(y, z, Q, P + [f])
  {
    Append(P, f);
  }

  predicate TakesReset(x: End, z: End, f: Frame, Q: seq<Frame>) {
    Q != [] && f == Q[0] && x.stage == Live && f.header.tag.Data? && f.header.flags.rst && z == WasReset(x)
  }

  lemma TakesResetForward(x: End, z: End, y: End, P: seq<Frame>, Q: seq<Frame>, f: Frame)
    requires LaneInv(x, y, P, Q) && TakesReset(x, z, f, Q)
    ensures EndOk(z) && Dir(z, y, P, Q[1..])
  {
  }

  lemma TakesResetBackward(x: End, z: End, y: End, P: seq<Frame>, Q: seq<Frame>, f: Frame)
    requires LaneInv(x, y, P, Q) && TakesReset(x, z, f, Q)
    ensures Dir(y, z, Q[1..], P)
  {
  }

  predicate TakesData(x: End, z: End, f: Frame, Q: seq<Frame>) {
    Q != [] && f == Q[0] && x.stage == Live && f.header.tag.Data? && !f.header.flags.rst && z == Delivered(x, f)
  }

  lemma TakesDataForwardFlow(x: End, z: End, y: End, P: seq<Frame>, Q: seq<Frame>, f: Frame)
    requires LaneInv(x, y, P, Q) && TakesData(x, z, f, Q)
    ensures EndOk(z) && LaneFrames(P) && Delivery(z, y, P) && Balance(z, y, P, Q[1..])
  {
    CreditIsPositive(P);
  }

  lemma TakesDataForwardOrder(x: End, z: End, y: End, P: seq<Frame>, Q: seq<Frame>, f: Frame)
    requires LaneInv(x, y, P, Q) && TakesData(x, z, f, Q)
    ensures SynOrder(z, y, P, Q[1..]) && Entry(z, y, P) && Started(z, P) && EndOrder(z, y, P) && Bounds(z, y, P, Q[1..])
  {
    CreditIsPositive(P);
  }

  lemma TakesDataForward(x: End, z: End, y: End, P: seq<Frame>, Q: seq<Frame>, f: Frame)
    requires LaneInv(x, y, P, Q) && TakesData(x, z, f, Q)
    ensures EndOk(z) && Dir(z, y, P, Q[1..])
  {
    hide EndOk, Delivery, Balance, SynOrder, Entry, Started, EndOrder, Bounds, LaneFrames;
    TakesDataForwardFlow(x, z, y, P, Q, f);
    TakesDataForwardOrder(x, z, y, P, Q, f);
  }

  lemma TakesDataBackwardFlow(x: End, z: End, y: End, P: seq<Frame>, Q: seq<Frame>, f: Frame)
    requires LaneInv(x, y, P, Q) && TakesData(x, z, f, Q)
    ensures LaneFrames(Q[1..]) && Delivery(y, z, Q[1..]) && Balance(y, z, Q[1..], P)
  {
    CreditIsPositive(P);
  }

  lemma TakesDataBackwardOrder(x: End, z: End, y: End, P: seq<Frame>, Q: seq<Frame>, f: Frame)
    requires LaneInv(x, y, P, Q) && TakesData(x, z, f, Q)
    ensures SynOrder(y, z, Q[1..], P) && Entry(y, z, Q[1..]) && Started(y, Q[1..]) && EndOrder(y, z, Q[1..]) && Bounds(y, z, Q[1..], P)
  {
    CreditIsPositive(P);
  }

  lemma TakesDataBackward(x: End, z: End, y: End, P: seq<Frame>, Q: seq<Frame>, f: Frame)
    requires LaneInv(x, y, P, Q) && TakesData(x, z, f, Q)
    ensures Dir(y, z, Q[1..], P)
  {
    hide EndOk, Delivery, Balance, SynOrder, Entry, Started, EndOrder, Bounds, LaneFrames;
    TakesDataBackwardFlow(x, z, y, P, Q, f);
    TakesDataBackwardOrder(x, z, y, P, Q, f);
  }

  predicate TakesSyn(x: End, z: End, f: Frame, Q: seq<Frame>) {
    Q != [] && f == Q[0] && x.stage != Live && IsSyn(f) && !f.header.flags.rst && z == Delivered(Admitted(x), f)
  }

  lemma TakesSynForward(x: End, z: End, y: End, P: seq<Frame>, Q: seq<Frame>, f: Frame)
    requires LaneInv(x, y, P, Q) && TakesSyn(x, z, f, Q)
    ensures EndOk(z) && Dir(z, y, P, Q[1..])
  {
    CreditIsPositive(P);
  }

  lemma TakesSynBackward(x: End, z: End, y: End, P: seq<Frame>, Q: seq<Frame>, f: Frame)
    requires LaneInv(x, y, P, Q) && TakesSyn(x, z, f, Q)
    ensures Dir(y, z, Q[1..], P)
  {
    CreditIsPositive(P);
  }

  predicate TakesCredit(x: End, z: End, f: Frame, Q: seq<Frame>) {
    Q != [] && f == Q[0] && x.stage == Live && f.header.tag.WindowUpdate? && z == Credited(x, f.header.length)
  }

  lemma TakesCreditForward(x: End, z: End, y: End, P: seq<Frame>, Q: seq<Frame>, f: Frame)
    requires LaneInv(x, y, P, Q) && TakesCredit(x, z, f, Q)
    ensures EndOk(z) && Dir(z, y, P, Q[1..])
  {
    CreditIsPositive(Q[1..]);
  }

  lemma TakesCreditBackwardFlow(x: End, z: End, y: End, P: seq<Frame>, Q: seq<Frame>, f: Frame)
    requires LaneInv(x, y, P, Q) && TakesCredit(x, z, f, Q)
    ensures LaneFrames(Q[1..]) && Delivery(y, z, Q[1..]) && Balance(y, z, Q[1..], P)
  {
    CreditIsPositive(Q[1..]);
  }

  lemma TakesCreditBackwardOrder(x: End, z: End, y: End, P: seq<Frame>, Q: seq<Frame>, f: Frame)
    requires LaneInv(x, y, P, Q) && TakesCredit(x, z, f, Q)
    ensures SynOrder(y, z, Q[1..], P) && Entry(y, z, Q[1..]) && Started(y, Q[1..]) && EndOrder(y, z, Q[1..]) && Bounds(y, z, Q[1..], P)
  {
    CreditIsPositive(Q[1..]);
  }

  lemma TakesCreditBackward(x: End, z: End, y: End, P: seq<Frame>, Q: seq<Frame>, f: Frame)
    requires LaneInv(x, y, P, Q) && TakesCredit(x, z, f, Q)
    ensures Dir(y, z, Q[1..], P)
  {
    hide EndOk, Delivery, Balance, SynOrder, Entry, Started, EndOrder, Bounds, LaneFrames;
    TakesCreditBackwardFlow(x, z, y, P, Q, f);
    TakesCreditBackwardOrder(x, z, y, P, Q, f);
  }

  predicate Ignores(x: End, z: End, f: Frame, Q: seq<Frame>) {
    Q != [] && f == Q[0] && x.stage != Live && !IsSyn(f) && z == x
  }

  lemma IgnoresForward(x: End, z: End, y: End, P: seq<Frame>, Q: seq<Frame>, f: Frame)
    requires LaneInv(x, y, P, Q) && Ignores(x, z, f, Q)
    ensures EndOk(z) && Dir(z, y, P, Q[1..])
  {
    CreditIsPositive(Q[1..]);
  }

  lemma IgnoresBackward(x: End, z: End, y: End, P: seq<Frame>, Q: seq<Frame>, f: Frame)
    requires LaneInv(x, y, P, Q) && Ignores(x, z, f, Q)
    ensures Dir(y, z, Q[1..], P)
  {
    CreditIsPositive(Q[1..]);
  }

  predicate Discards(x: End, z: End, f: Frame, Q: seq<Frame>) {
    Q != [] && f == Q[0] && !x.sending && z == x
  }

  lemma DiscardsForward(x: End, z: End, y: End, P: seq<Frame>, Q: seq<Frame>, f: Frame)
    requires LaneInv(x, y, P, Q) && Discards(x, z, f, Q)
    ensures EndOk(z) && Dir(z, y, P, Q[1..])
  {
    CreditIsPositive(Q[1..]);
  }

  lemma DiscardsBackward(x: End, z: End, y: End, P: seq<Frame>, Q: seq<Frame>, f: Frame)
    requires LaneInv(x, y, P, Q) && Discards(x, z, f, Q)
    ensures Dir(y, z, Q[1..], P)
  {
    CreditIsPositive(Q[1..]);
  }

  // ----- what the invariant means -----

  /** No data frame overruns the window it arrives at, and no opening frame the
      default window. */
  lemma DataFits(x: End, y: End, P: seq<Frame>, Q: seq<Frame>)
    requires LaneInv(x, y, P, Q) && Q != []
    ensures x.stage == Live ==> |BodyOf(Q[0])| <= x.recv
    ensures x.stage != Live && IsSyn(Q[0]) ==> |BodyOf(Q[0])| <= DEFAULT_CREDIT
  {
    assert LaneFrame(Q[0]);
    CreditIsPositive(P);
  }

  /** No window update overflows the window it arrives at. */
  lemma CreditFits(x: End, y: End, P: seq<Frame>, Q: seq<Frame>)
    requires LaneInv(x, y, P, Q) && Q != [] && x.stage == Live
    ensures x.send + CreditOf(Q[0]) <= U32_MAX
  {
    assert LaneFrame(Q[0]);
    CreditIsPositive(Q[1..]);
  }

  /** An end that saw a close frame and has emptied its buffer has read every byte
      the other end ever wrote, and the other end writes no more. */
  lemma EofMeansEverythingRead(x: End, y: End, P: seq<Frame>, Q: seq<Frame>)
    requires LaneInv(x, y, P, Q) && x.gotEnd && !x.reaped && x.sending && x.buffer == []
    ensures x.read == y.written && (y.reaped || !CanWrite(y.st))
  {
  }

  /** The first frame to reach an end without a record opens the stream if and only if
      the sender did not close its handle too early; otherwise it has no body. */
  lemma FirstFrameOpens(x: End, y: End, P: seq<Frame>, Q: seq<Frame>)
    requires LaneInv(x, y, P, Q) && x.stage != Live && !x.reaped && x.sending && Q != []
    ensures (IsSyn(Q[0]) <==> !y.early) && (!IsSyn(Q[0]) ==> BodyOf(Q[0]) == [])
  {
  }
}
