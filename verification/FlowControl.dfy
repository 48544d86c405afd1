/** The credit windows of one stream, in machine integers (mux/mux/src/connection/
    stream/flow_control.rs). Every operation below is shown not to overflow. */
module FlowControl {
  import opened Basics
  import opened Frames
  import opened StreamModel

  newtype u32 = x: int | 0 <= x <= 0xFFFF_FFFF

  newtype usize = x: int | 0 <= x <= 0xFFFF_FFFF_FFFF_FFFF

  const CREDIT: u32 := 256 * 1024

  function SubOrZero(a: usize, b: usize): usize { if a <= b then 0 else a - b }

  function SubOrZero32(a: u32, b: u32): u32 { if a <= b then 0 else a - b }

  /** `saturating_mul`. */
  function TimesOrMax(a: usize, b: usize): usize {
    if a as int * b as int > 0xFFFF_FFFF_FFFF_FFFF then 0xFFFF_FFFF_FFFF_FFFF else (a as int * b as int) as usize
  }

  /** `try_into().unwrap_or(u32::MAX)`. */
  function Narrow(a: usize): u32 { if a > 0xFFFF_FFFF then 0xFFFF_FFFF else a as u32 }

  /** The window beyond the default that all streams of a connection were given. */
  class Budget {
    var accumulated: usize

    constructor ()
      ensures accumulated == 0
    {
      accumulated := 0;
    }
  }

  class FlowController {
    const config: Config
    const budget: Budget
    var receiveWindow: u32
    var maxReceiveWindow: u32
    var sendWindow: u32

    /** What holds between calls, for a stream that buffers `buffered` bytes. */
    ghost predicate Valid(buffered: nat) reads this, budget {
      && ConfigOk(config) && DEFAULT_CREDIT <= maxReceiveWindow as int
      && receiveWindow as int + buffered <= maxReceiveWindow as int
      && maxReceiveWindow as int - DEFAULT_CREDIT <= budget.accumulated as int <= Spare(config)
    }

    /** The same windows as a stream record of the model. */
    ghost function AsShared(buffer: seq<byte>): Shared reads this {
      StreamModel.Fresh(1).(recv := receiveWindow as int, maxRecv := maxReceiveWindow as int, send := sendWindow as int, buffer := buffer)
    }

    constructor (config: Config, budget: Budget)
      requires ConfigOk(config) && budget.accumulated as int <= Spare(config)
      ensures Valid(0) && this.config == config && this.budget == budget
      ensures receiveWindow == maxReceiveWindow == sendWindow == CREDIT
    {
      this.config, this.budget := config, budget;
      receiveWindow, maxReceiveWindow, sendWindow := CREDIT, CREDIT, CREDIT;
    }

    /** Twice the window, or what the connection limit allows. */
    method Tune() returns (newMax: u32)
      requires Valid(0)
      ensures newMax as int == Tuned(config, budget.accumulated as int, maxReceiveWindow as int)
      ensures maxReceiveWindow <= newMax
      ensures newMax as int == 2 * maxReceiveWindow as int || newMax as int == U32_MAX
              || config.maxStreams * DEFAULT_CREDIT + budget.accumulated as int + (newMax as int - maxReceiveWindow as int) >= Window(config)
    {
      hide ConfigOk, Build;
      var doubled: u32 := if maxReceiveWindow > 0xFFFF_FFFF / 2 then 0xFFFF_FFFF else maxReceiveWindow * 2;
      ConfigFits(config);
      var reserved := TimesOrMax(config.maxStreams as usize, CREDIT as usize);
      var overall: usize := if config.window.Some? then config.window.value as usize else 0xFFFF_FFFF_FFFF_FFFF;
      var left := SubOrZero(SubOrZero(overall, reserved), budget.accumulated);
      LimitFits(config, maxReceiveWindow as int, budget.accumulated as int);
      var limit := maxReceiveWindow as usize + left;
      TunedGrows(config, maxReceiveWindow as int, budget.accumulated as int);
      newMax := if doubled <= Narrow(limit) then doubled else Narrow(limit);
    }

    /** The credit to grant, if it is worth a frame. `fast` says that the remote used
        up its credit within two round trips: then the window grows, within what the
        connection has left. The result and the new windows are those of the model. */
    method NextWindowUpdate(ghost buffer: seq<byte>, bufferLen: usize, fast: bool) returns (r: Option<u32>)
      requires bufferLen as int == |buffer| && Valid(|buffer|)
      modifies this`receiveWindow, this`maxReceiveWindow, budget
      ensures Valid(|buffer|)
      ensures match NextGrant(config, old(budget.accumulated) as int, old(AsShared(buffer)), fast)
              case None => r.None? && AsShared(buffer) == old(AsShared(buffer)) && budget.accumulated == old(budget.accumulated)
              case Some(g) =>
                && r.Some? && r.value as int == g.credit && AsShared(buffer) == Granted(old(AsShared(buffer)), g)
                && budget.accumulated as int == old(budget.accumulated) as int + (g.newMax - old(maxReceiveWindow) as int)
    {
      hide ConfigOk, Build, Spare, Tuned;
      var bytesReceived := maxReceiveWindow - receiveWindow;
      var next := SubOrZero32(bytesReceived, Narrow(bufferLen));
      if next < maxReceiveWindow / 2 { return None; }
      if fast {
        var newMax := Tune();
        TunedFits(config, maxReceiveWindow as int, budget.accumulated as int);
        budget.accumulated := budget.accumulated + (newMax - maxReceiveWindow) as usize;
        maxReceiveWindow := newMax;
        bytesReceived := maxReceiveWindow - receiveWindow;
        next := SubOrZero32(bytesReceived, Narrow(bufferLen));
      }
      receiveWindow := receiveWindow + next;
      r := Some(next);
    }

    /** `checked_sub` panics below zero, so the caller must have looked at the window. */
    method ConsumeSendWindow(i: u32)
      requires i <= sendWindow
      modifies this`sendWindow
      ensures sendWindow == old(sendWindow) - i
    {
      sendWindow := sendWindow - i;
    }

    /** `checked_add` panics above the range of a `u32`. */
    method IncreaseSendWindowBy(i: u32)
      requires sendWindow as int + i as int <= U32_MAX
      modifies this`sendWindow
      ensures sendWindow == old(sendWindow) + i
    {
      sendWindow := sendWindow + i;
    }

    /** Data that fits the window moves from credit to the buffer. */
    method ConsumeReceiveWindow(i: u32, ghost buffered: nat)
      requires Valid(buffered) && i <= receiveWindow
      modifies this`receiveWindow
      ensures Valid(buffered + i as nat) && receiveWindow == old(receiveWindow) - i
    {
      receiveWindow := receiveWindow - i;
    }

    /** Dropping the controller gives back what it had beyond the default. */
    method Drop(ghost buffered: nat)
      requires Valid(buffered)
      modifies budget
      ensures budget.accumulated as int == old(budget.accumulated) as int - (maxReceiveWindow as int - DEFAULT_CREDIT)
    {
      budget.accumulated := budget.accumulated - (maxReceiveWindow - CREDIT) as usize;
    }
  }

  /** The two ends of one direction of a stream with nothing under way. */
  ghost predicate InStep(sender: FlowController, receiver: FlowController, buffered: nat)
    reads sender, receiver, receiver.budget
  {
    sender != receiver && receiver.Valid(buffered) && sender.sendWindow == receiver.receiveWindow
  }

  /** Data goes over, as much as the sender has credit for: it always fits the receiver's
      window, and the windows stay equal. */
  method SendOver(sender: FlowController, receiver: FlowController, wanted: u32, ghost buffered: nat) returns (n: u32)
    requires InStep(sender, receiver, buffered)
    modifies sender`sendWindow, receiver`receiveWindow
    ensures InStep(sender, receiver, buffered + n as nat) && n <= wanted && (n < wanted ==> sender.sendWindow == 0)
    ensures receiver.receiveWindow as nat + (buffered + n as nat) == old(receiver.receiveWindow) as nat + buffered
  {
    n := if wanted <= sender.sendWindow then wanted else sender.sendWindow;
    sender.ConsumeSendWindow(n);
    receiver.ConsumeReceiveWindow(n, buffered);
  }

  /** Credit goes back: it always fits the sender's window, the windows stay equal, and
      after a grant they make up the maximum together with what is buffered. */
  method Replenish(sender: FlowController, receiver: FlowController, ghost buffer: seq<byte>, bufferLen: usize, fast: bool) returns (r: Option<u32>)
    requires InStep(sender, receiver, |buffer|) && bufferLen as int == |buffer|
    modifies sender`sendWindow, receiver`receiveWindow, receiver`maxReceiveWindow, receiver.budget
    ensures InStep(sender, receiver, |buffer|)
    ensures r.Some? ==> sender.sendWindow as nat + |buffer| == receiver.maxReceiveWindow as nat
    ensures r.None? ==> sender.sendWindow == old(sender.sendWindow) && receiver.maxReceiveWindow == old(receiver.maxReceiveWindow)
  {
    hide ConfigOk, NextGrant, Spare;
    ghost var sh := receiver.AsShared(buffer);
    if NextGrant(receiver.config, receiver.budget.accumulated as int, sh, fast).Some? {
      GrantKeepsWindows(receiver.config, receiver.budget.accumulated as int, sh, fast);
    }
    r := receiver.NextWindowUpdate(buffer, bufferLen, fast);
    if r.Some? { sender.IncreaseSendWindowBy(r.value); }
  }

  lemma ConfigFits(cfg: Config)
    requires ConfigOk(cfg)
    ensures 1 <= cfg.maxStreams <= USIZE_MAX && (cfg.window.Some? ==> 0 <= cfg.window.value <= USIZE_MAX)
  {
  }

  /** The tuned window is not smaller, and what it adds is within the budget. */
  lemma TunedFits(cfg: Config, maxRecv: int, acc: int)
    requires ConfigOk(cfg) && DEFAULT_CREDIT <= maxRecv <= U32_MAX && maxRecv - DEFAULT_CREDIT <= acc <= Spare(cfg)
    ensures maxRecv <= Tuned(cfg, acc, maxRecv) <= U32_MAX
    ensures acc + (Tuned(cfg, acc, maxRecv) - maxRecv) <= Spare(cfg) <= USIZE_MAX
  {
  }

  /** The connection limit of one stream is no more than the connection window, so it
      fits a `usize`. */
  lemma LimitFits(cfg: Config, maxRecv: int, acc: int)
    requires ConfigOk(cfg) && DEFAULT_CREDIT <= maxRecv && maxRecv - DEFAULT_CREDIT <= acc <= Spare(cfg)
    ensures maxRecv + SatSub(Spare(cfg), acc) <= USIZE_MAX
    ensures acc + SatSub(Spare(cfg), acc) <= USIZE_MAX
  {
  }
}
