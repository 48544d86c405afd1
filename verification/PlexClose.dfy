/** The lock-free close of an in-memory pipe against tasks that are polling it
    (futures-plex/src/lib.rs: CloseState, poll_get, poll_mut, DuplexStream::drop).
    Loads, stores, registrations and wakes are atomic steps in any order. */
module PlexClose {
  import opened Basics

  /** Who polls this stream and may be parked when the other end goes away. */
  datatype Role = Reader | Writer

  /** Where the polling task is. `Returned(true)` means that it got `Pending`. */
  datatype Stage = Idle | Started | Blocked | Parked | Registered | Returned(pending: bool)

  /** How far the close of this stream has come. `Taken` holds what was found in the
      waker slot. */
  datatype Closing = NotYet | Stored | Taken(waker: bool) | Done

  /** One stream, its polling task, and the end that closes it. `stored` is the waker
      kept under the lock, `slot` the one that a close takes; `woken` says that the
      task was woken since it last began to poll. */
  datatype Stream = Stream(
    role: Role, capacity: nat, len: nat, stage: Stage, stored: bool, slot: bool, woken: bool, closing: Closing)

  /** The closed flag is up. */
  predicate Closed(s: Stream) { !s.closing.NotYet? }

  /** The task cannot go on: nothing to read, or no room to write. */
  predicate Stuck(s: Stream) { if s.role.Reader? then s.len == 0 else s.len == s.capacity }

  /** The lock is held from the start of a poll to its end. */
  predicate Locked(s: Stream) { s.stage.Started? || s.stage.Blocked? || s.stage.Parked? || s.stage.Registered? }

  datatype Event =
    | Begin
    | Look
    | Store
    | Register
    | Recheck
    | Transfer(amount: nat)
    | Use(amount: nat)
    | CloseStore
    | CloseTake
    | CloseWake

  /** What the task finds when it looks: a reader sees data before the flag, a writer
      the flag before room. */
  function Looked(s: Stream): Stage {
    match s.role
    case Reader => if s.len > 0 then Returned(false) else if Closed(s) then Returned(false) else Blocked
    case Writer => if Closed(s) then Returned(false) else if s.len < s.capacity then Returned(false) else Blocked
  }

  /** The bytes that the other end moves: it fills a reader's stream and empties a
      writer's. */
  function Moved(s: Stream, amount: int): int { if s.role.Reader? then s.len + amount else s.len - amount }

  predicate Enabled(s: Stream, e: Event) {
    match e
    case Begin => !Locked(s)
    case Look => s.stage.Started?
    case Store => s.stage.Blocked?
    case Register => s.stage.Parked?
    case Recheck => s.stage.Registered?
    case Transfer(n) => !Locked(s) && s.closing.NotYet? && n > 0 && 0 <= Moved(s, n) <= s.capacity
    case Use(n) => s.stage == Returned(false) && n > 0 && 0 <= Moved(s, 0 - n) <= s.capacity
    case CloseStore => s.closing.NotYet?
    case CloseTake => s.closing.Stored?
    case CloseWake => s.closing.Taken?
  }

  function Act(s: Stream, e: Event): Stream
    requires Enabled(s, e)
  {
    match e
    case Begin => s.(stage := Started, woken := false)
    case Look => s.(stage := Looked(s))
    case Store => s.(stage := Parked, stored := true)
    case Register => s.(stage := Registered, slot := true)
    case Recheck => s.(stage := Returned(!Closed(s)))
    case Transfer(n) => s.(len := Moved(s, n), woken := s.woken || s.stored, stored := false)
    case Use(n) => s.(len := Moved(s, 0 - n))
    case CloseStore => s.(closing := Stored)
    case CloseTake => s.(closing := Taken(s.slot), slot := false)
    case CloseWake => s.(closing := Done, woken := s.woken || s.closing.waker)
  }

  function New(role: Role, capacity: nat): Stream { Stream(role, capacity, 0, Idle, false, false, false, NotYet) }

  /** The stream after a sequence of steps, in any interleaving of its three actors. */
  ghost predicate Run(s: Stream, events: seq<Event>, t: Stream)
    decreases |events|
  {
    if events == [] then s == t else Enabled(s, events[0]) && Run(Act(s, events[0]), events[1..], t)
  }

  // ----- what every interleaving keeps -----

  predicate Inv(s: Stream) {
    && s.len <= s.capacity
    && (s.stored ==> Stuck(s))
    && (s.stage.Blocked? || s.stage.Parked? || s.stage.Registered? ==> Stuck(s))
    && (s.stage.Parked? || s.stage.Registered? ==> s.stored)
    && (s.stage.Registered? && s.closing.NotYet? ==> s.slot)
    && (s.stage == Returned(true) && !s.woken ==>
          s.stored && (if s.closing.Taken? then s.closing.waker else !s.closing.Done? && s.slot))
  }

  lemma StepKeeps(s: Stream, e: Event)
    requires Inv(s) && Enabled(s, e)
    ensures Inv(Act(s, e))
  {
  }

  lemma {:induction false} RunKeeps(s: Stream, events: seq<Event>, t: Stream)
    requires Inv(s) && Run(s, events, t)
    ensures Inv(t)
    decreases |events|
  {
    hide Inv, Enabled, Act;
    if events != [] {
      StepKeeps(s, events[0]);
      RunKeeps(Act(s, events[0]), events[1..], t);
    }
  }

  /** No wakeup is lost: once the close is finished, whoever was left `Pending` has
      been woken since; and whoever is not woken yet is still stuck. */
  lemma PendingIsWoken(role: Role, capacity: nat, events: seq<Event>, t: Stream)
    requires Run(New(role, capacity), events, t) && t.stage == Returned(true)
    ensures t.closing.Done? ==> t.woken
    ensures !t.woken ==> Stuck(t)
  {
    RunKeeps(New(role, capacity), events, t);
  }

  /** A waker kept under the lock means an empty ring for a reader, a full one for a
      writer. */
  lemma StoredMeansStuck(role: Role, capacity: nat, events: seq<Event>, t: Stream)
    requires Run(New(role, capacity), events, t) && t.stored
    ensures if role.Reader? then t.len == 0 else t.len == capacity
  {
    RunKeeps(New(role, capacity), events, t);
    SameRole(New(role, capacity), events, t);
  }

  lemma {:induction false} SameRole(s: Stream, events: seq<Event>, t: Stream)
    requires Run(s, events, t)
    ensures t.role == s.role && t.capacity == s.capacity
    decreases |events|
  {
    if events != [] { SameRole(Act(s, events[0]), events[1..], t); }
  }

  /** A poll that began after the flag went up never parks. */
  lemma {:induction false} NoParkingAfterClose(s: Stream, events: seq<Event>, t: Stream)
    requires Inv(s) && Closed(s) && (s.stage.Started? || s.stage.Idle? || s.stage == Returned(false)) && Run(s, events, t)
    ensures t.stage != Returned(true)
    decreases |events|
  {
    if events != [] { NoParkingAfterClose(Act(s, events[0]), events[1..], t); }
  }

  // ----- why the order matters -----

  /** With the waker taken before the flag is up, a poll in between parks for good:
      the close finishes and nobody is woken. */
  lemma TakingFirstLosesAWakeup(capacity: nat)
    ensures var a := Act(Act(New(Reader, capacity), Begin), Look);
            var taken := a.slot;
            var b := Act(Act(Act(a, Store), Register), Recheck);
            var c := b.(closing := Taken(taken));
            b.stage == Returned(true) && !Act(c, CloseWake).woken && Act(c, CloseWake).closing.Done?
  {
  }

  // ----- dropping one end of a pair -----

  /** The two streams that an end shares with its peer: the peer writes into
      `toWriter` and reads from `toReader`. `dropped` counts the steps of the drop. */
  datatype Duplex = Duplex(toWriter: Stream, toReader: Stream, dropped: nat)

  /** The drop closes the read side, then the write side, then wakes both. */
  function Drop(d: Duplex): Duplex
    requires d.dropped < 6
    requires Enabled(if d.dropped in {0, 1, 4} then d.toWriter else d.toReader, DropEvent(d.dropped))
  {
    if d.dropped in {0, 1, 4}
    then d.(toWriter := Act(d.toWriter, DropEvent(d.dropped)), dropped := d.dropped + 1)
    else d.(toReader := Act(d.toReader, DropEvent(d.dropped)), dropped := d.dropped + 1)
  }

  function DropEvent(n: nat): Event {
    if n == 0 || n == 2 then CloseStore else if n == 1 || n == 3 then CloseTake else CloseWake
  }

  datatype DuplexStep = Dropping | OnWriter(e: Event) | OnReader(e: Event)

  /** Steps of the peer's tasks, and transfers by this end while it is alive. */
  predicate PeerStep(e: Event) { !e.CloseStore? && !e.CloseTake? && !e.CloseWake? }

  ghost predicate DuplexNext(d: Duplex, step: DuplexStep, t: Duplex) {
    match step
    case Dropping =>
      && d.dropped < 6
      && Enabled(if d.dropped in {0, 1, 4} then d.toWriter else d.toReader, DropEvent(d.dropped))
      && t == Drop(d)
    case OnWriter(e) =>
      && PeerStep(e) && (e.Transfer? ==> d.dropped == 0) && Enabled(d.toWriter, e)
      && t == d.(toWriter := Act(d.toWriter, e))
    case OnReader(e) =>
      && PeerStep(e) && (e.Transfer? ==> d.dropped == 0) && Enabled(d.toReader, e)
      && t == d.(toReader := Act(d.toReader, e))
  }

  ghost predicate DuplexRun(d: Duplex, steps: seq<DuplexStep>, states: seq<Duplex>) {
    && |states| == |steps| + 1 && states[0] == d
    && forall i :: 0 <= i < |steps| ==> DuplexNext(states[i], steps[i], states[i + 1])
  }

  /** How far each stream's close has come after so many steps of the drop. */
  predicate InStep(d: Duplex) {
    && d.dropped <= 6
    && d.toWriter.closing.NotYet? == (d.dropped == 0) && d.toWriter.closing.Stored? == (d.dropped == 1)
    && d.toWriter.closing.Taken? == (2 <= d.dropped <= 4) && d.toWriter.closing.Done? == (d.dropped >= 5)
    && d.toReader.closing.NotYet? == (d.dropped <= 2) && d.toReader.closing.Stored? == (d.dropped == 3)
    && d.toReader.closing.Taken? == (4 <= d.dropped <= 5) && d.toReader.closing.Done? == (d.dropped == 6)
  }

  predicate DuplexInv(d: Duplex) { Inv(d.toWriter) && Inv(d.toReader) && InStep(d) }

  lemma PeerStepKeepsClosing(s: Stream, e: Event)
    requires Enabled(s, e) && PeerStep(e)
    ensures Act(s, e).closing == s.closing
  {
  }

  lemma DropKeepsStep(d: Duplex)
    requires d.dropped < 6 && InStep(d)
    requires Enabled(if d.dropped in {0, 1, 4} then d.toWriter else d.toReader, DropEvent(d.dropped))
    ensures InStep(Drop(d))
  {
  }

  lemma DuplexStepKeeps(d: Duplex, step: DuplexStep, t: Duplex)
    requires DuplexInv(d) && DuplexNext(d, step, t)
    ensures DuplexInv(t)
  {
    hide Inv, Enabled, Act, InStep, DropEvent;
    match step
    case OnWriter(e) =>
      StepKeeps(d.toWriter, e);
      PeerStepKeepsClosing(d.toWriter, e);
      SameStep(d, t);
    case OnReader(e) =>
      StepKeeps(d.toReader, e);
      PeerStepKeepsClosing(d.toReader, e);
      SameStep(d, t);
    case Dropping =>
      DropKeepsStep(d);
      StepKeeps(if d.dropped in {0, 1, 4} then d.toWriter else d.toReader, DropEvent(d.dropped));
  }

  lemma SameStep(d: Duplex, t: Duplex)
    requires InStep(d) && t.dropped == d.dropped
    requires t.toWriter.closing == d.toWriter.closing && t.toReader.closing == d.toReader.closing
    ensures InStep(t)
  {
  }

  lemma {:induction false} DuplexKeeps(d: Duplex, steps: seq<DuplexStep>, states: seq<Duplex>, n: nat)
    requires DuplexInv(d) && DuplexRun(d, steps, states) && n <= |steps|
    ensures DuplexInv(states[n])
  {
    hide DuplexInv, DuplexNext;
    if n > 0 {
      DuplexKeeps(d, steps, states, n - 1);
      DuplexStepKeeps(states[n - 1], steps[n - 1], states[n]);
    }
  }

  /** Once an end has been dropped, every task of the peer that was left waiting, to
      read or to write, has been woken. */
  lemma DropWakesEveryone(readCapacity: nat, writeCapacity: nat, steps: seq<DuplexStep>, states: seq<Duplex>, n: nat)
    requires DuplexRun(Duplex(New(Writer, readCapacity), New(Reader, writeCapacity), 0), steps, states) && n <= |steps|
    requires states[n].dropped == 6
    ensures states[n].toWriter.stage == Returned(true) ==> states[n].toWriter.woken
    ensures states[n].toReader.stage == Returned(true) ==> states[n].toReader.woken
  {
    DuplexKeeps(states[0], steps, states, n);
  }
}
