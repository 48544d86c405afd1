/** One stream's state: half-close states, credit windows, the receive buffer
    and the wakers (mux/mux/src/connection/stream.rs and stream/flow_control.rs),
    as values. */
module StreamModel {
  import opened Frames
  import opened Basics

  // ----- configuration -----

  datatype Config = Config(maxStreams: int, window: Option<int>, readAfterClose: bool, splitSend: int, closeSync: bool)

  datatype BuildResult = Built(cfg: Config) | ReceiveWindowTooSmall(minRequired: int)

  /** The ranges of the Rust field types, with the clamp of `max_num_streams`. */
  predicate Settable(cfg: Config) {
    && 1 <= cfg.maxStreams <= USIZE_MAX
    && 0 <= cfg.splitSend <= USIZE_MAX
    && (cfg.window.Some? ==> 0 <= cfg.window.value <= USIZE_MAX)
  }

  function Min(a: int, b: int): int { if a <= b then a else b }

  function SatSub(a: int, b: int): int { if a <= b then 0 else a - b }

  function SatMul(a: int, b: int, max: int): int { Min(a * b, max) }

  function Build(cfg: Config): BuildResult {
    var required := SatMul(cfg.maxStreams, DEFAULT_CREDIT, USIZE_MAX);
    if cfg.window.Some? && cfg.window.value < required then ReceiveWindowTooSmall(required) else Built(cfg)
  }

  predicate ConfigOk(cfg: Config) { Settable(cfg) && Build(cfg).Built? }

  function Window(cfg: Config): int { if cfg.window.Some? then cfg.window.value else USIZE_MAX }

  /** Connection window left over once every slot has its default window. */
  function Spare(cfg: Config): int {
    SatSub(Window(cfg), SatMul(cfg.maxStreams, DEFAULT_CREDIT, USIZE_MAX))
  }

  // ----- half-close states -----

  datatype State = Open | SendClosed | RecvClosed | Closed

  predicate CanRead(s: State) { s.Open? || s.SendClosed? }

  predicate CanWrite(s: State) { s.Open? || s.RecvClosed? }

  function UpdateState(cur: State, next: State): State {
    match cur
    case Closed => Closed
    case Open => next
    case RecvClosed => if next.Closed? || next.SendClosed? then Closed else RecvClosed
    case SendClosed => if next.Closed? || next.RecvClosed? then Closed else SendClosed
  }

  /** What can close a half of a stream. */
  datatype Event = LocalFin | InactiveClose | RemoteFin | RemoteRst | LeftActive

  function Target(e: Event): State {
    match e
    case LocalFin => SendClosed
    case InactiveClose => SendClosed
    case RemoteFin => RecvClosed
    case LeftActive => RecvClosed
    case RemoteRst => Closed
  }

  datatype Half = SendHalf | RecvHalf

  /** The halves that are closed in a state. */
  function Halves(s: State): set<Half> {
    match s
    case Open => {}
    case SendClosed => {SendHalf}
    case RecvClosed => {RecvHalf}
    case Closed => {SendHalf, RecvHalf}
  }

  /** The halves that a set of events closes between them. */
  function ClosedBy(events: set<Event>): set<Half> {
    (if LocalFin in events || InactiveClose in events || RemoteRst in events then {SendHalf} else {})
    + (if RemoteFin in events || LeftActive in events || RemoteRst in events then {RecvHalf} else {})
  }

  function RunEvents(s: State, events: seq<Event>): State
    decreases |events|
  {
    if events == [] then s else RunEvents(UpdateState(s, Target(events[0])), events[1..])
  }

  /** The state is the join of the events seen, so their order cannot matter. */
  lemma {:induction false} StateIsJoinOfEvents(s: State, events: seq<Event>)
    ensures Halves(RunEvents(s, events)) == Halves(s) + ClosedBy(set e | e in events)
    decreases |events|
  {
    if events != [] {
      StateIsJoinOfEvents(UpdateState(s, Target(events[0])), events[1..]);
      assert events == [events[0]] + events[1..];
      assert (set e | e in events) == {events[0]} + (set e | e in events[1..]);
    }
  }

  lemma OrderOfEventsIsIrrelevant(s: State, one: seq<Event>, two: seq<Event>)
    requires forall e :: e in one <==> e in two
    ensures RunEvents(s, one) == RunEvents(s, two)
  {
    StateIsJoinOfEvents(s, one);
    StateIsJoinOfEvents(s, two);
    assert (set e | e in one) == (set e | e in two);
    SameHalvesSameState(RunEvents(s, one), RunEvents(s, two));
  }

  lemma SameHalvesSameState(s: State, t: State)
    requires Halves(s) == Halves(t)
    ensures s == t
  {
  }

  // ----- the shared stream record -----

  /** `reader` and `writer` say whether a waker is stored. The last five fields
      are history: the stream id, whether the parked read passed an empty slice,
      whether the command queue had room when it parked, whether a handle was
      ever attached, and the half-close events seen so far. */
  datatype Shared = Shared(
    state: State, recv: int, maxRecv: int, send: int,
    buffer: seq<byte>, reader: bool, writer: bool, activated: bool, synPending: bool,
    owner: StreamId, readNothing: bool, readRoom: bool, claimed: bool, events: set<Event>)

  function Fresh(id: StreamId): Shared {
    Shared(Open, DEFAULT_CREDIT, DEFAULT_CREDIT, DEFAULT_CREDIT, [], false, false, false, false, id, false, false, false, {})
  }

  function Mark(sh: Shared, e: Event): Shared {
    sh.(state := UpdateState(sh.state, Target(e)), events := sh.events + {e})
  }

  function WakeBoth(sh: Shared): Shared { sh.(reader := false, writer := false) }

  predicate StateOk(sh: Shared) { Halves(sh.state) == ClosedBy(sh.events) }

  // ----- flow control -----

  datatype Grant = Grant(credit: int, newMax: int)

  /** The auto-tuned maximum: doubled, within the connection budget. */
  function Tuned(cfg: Config, acc: int, maxRecv: int): int {
    var limit := maxRecv + SatSub(Spare(cfg), acc);
    Min(SatMul(maxRecv, 2, U32_MAX), Min(limit, U32_MAX))
  }

  /** The window update to send, if it is worth sending. `tune` says whether the
      sender used up its credit within two round trips. */
  function NextGrant(cfg: Config, acc: int, sh: Shared, tune: bool): Option<Grant> {
    var buffered := Min(|sh.buffer|, U32_MAX);
    if SatSub(sh.maxRecv - sh.recv, buffered) < sh.maxRecv / 2 then None
    else
      var newMax := if tune then Tuned(cfg, acc, sh.maxRecv) else sh.maxRecv;
      Some(Grant(SatSub(newMax - sh.recv, buffered), newMax))
  }

  function Granted(sh: Shared, g: Grant): Shared {
    sh.(recv := sh.recv + g.credit, maxRecv := g.newMax)
  }

  /** The windows of one stream within its own maximum. */
  predicate WindowsOk(sh: Shared) {
    && DEFAULT_CREDIT <= sh.maxRecv <= U32_MAX
    && 0 <= sh.recv
    && 0 <= sh.send <= U32_MAX
    && sh.recv + |sh.buffer| <= sh.maxRecv
  }

  lemma GrantKeepsWindows(cfg: Config, acc: int, sh: Shared, tune: bool)
    requires ConfigOk(cfg) && WindowsOk(sh)
    requires sh.maxRecv - DEFAULT_CREDIT <= acc <= Spare(cfg)
    requires NextGrant(cfg, acc, sh, tune).Some?
    ensures var g := NextGrant(cfg, acc, sh, tune).value;
            && WindowsOk(Granted(sh, g))
            && sh.maxRecv <= g.newMax <= 2 * sh.maxRecv
            && g.newMax - sh.maxRecv <= Spare(cfg) - acc
            && g.credit >= sh.maxRecv / 2
            && sh.recv + g.credit + |sh.buffer| == g.newMax
  {
  }

  /** A tuned maximum is the double, unless a `u32` or the connection window ends first. */
  lemma TunedGrows(cfg: Config, maxRecv: int, acc: int)
    requires ConfigOk(cfg) && DEFAULT_CREDIT <= maxRecv <= U32_MAX && maxRecv - DEFAULT_CREDIT <= acc <= Spare(cfg)
    ensures var max := Tuned(cfg, acc, maxRecv);
            maxRecv <= max && (max == 2 * maxRecv || max == U32_MAX || cfg.maxStreams * DEFAULT_CREDIT + acc + (max - maxRecv) >= Window(cfg))
  {
  }

  /** Credit is granted once half of the window is free, and not before. A tuned window is
      doubled, unless a `u32` or the connection's budget ends first; another one stays. */
  lemma GrantDoubles(cfg: Config, acc: int, sh: Shared, tune: bool)
    requires ConfigOk(cfg) && WindowsOk(sh)
    requires sh.maxRecv - DEFAULT_CREDIT <= acc <= Spare(cfg)
    ensures NextGrant(cfg, acc, sh, tune).Some? <==> sh.maxRecv - sh.recv - |sh.buffer| >= sh.maxRecv / 2
    ensures NextGrant(cfg, acc, sh, tune).Some? ==>
              var max := NextGrant(cfg, acc, sh, tune).value.newMax;
              if tune then
                max == 2 * sh.maxRecv || max == U32_MAX || cfg.maxStreams * DEFAULT_CREDIT + acc + (max - sh.maxRecv) >= Window(cfg)
              else max == sh.maxRecv
  {
  }
}
