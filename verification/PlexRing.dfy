/** The ring buffer of a one-directional in-memory pipe, a bounded queue of bytes
    (futures-plex/src/lib.rs, SimplexStream). */
module PlexRing {
  import opened Basics

  type Task = nat

  // ----- a ring as a queue -----

  /** A position that may have run past the end of the ring once. */
  function Slot(cap: nat, x: nat): nat
    requires x < 2 * cap
  {
    if x < cap then x else x - cap
  }

  function Wrapped(x: nat, cap: nat): (r: nat)
    requires x < 2 * cap
    ensures r == Slot(cap, x)
  {
    assert x >= cap ==> x == cap * 1 + (x - cap);
    x % cap
  }

  /** The `len` bytes of a ring from `ptr` on, in reading order. */
  function Unrolled(ring: seq<byte>, ptr: nat, len: nat): (queue: seq<byte>)
    requires len <= |ring| && (ptr < |ring| || len == 0)
    ensures |queue| == len
  {
    if len == 0 then []
    else if ptr + len <= |ring| then ring[ptr..ptr + len] else ring[ptr..] + ring[..ptr + len - |ring|]
  }

  function MinNat(a: nat, b: nat): nat { if a <= b then a else b }

  /** The readable bytes that lie in one piece. */
  function FirstRead(cap: nat, ptr: nat, len: nat): (k: nat)
    requires ptr <= cap
    ensures k <= len
  {
    MinNat(len, cap - ptr)
  }

  function TailOf(cap: nat, ptr: nat, len: nat): nat
    requires ptr < cap && len <= cap
  {
    Slot(cap, ptr + len)
  }

  /** The free bytes that lie in one piece. */
  function FirstFree(cap: nat, ptr: nat, len: nat): (free: nat)
    requires len <= cap && (ptr < cap || cap == 0)
    ensures free <= cap - len && (len < cap ==> free > 0 && TailOf(cap, ptr, len) + free <= cap)
  {
    if len == cap then 0
    else if TailOf(cap, ptr, len) < ptr then ptr - TailOf(cap, ptr, len)
    else cap - TailOf(cap, ptr, len)
  }

  /** What `get` shows is the front of the queue. */
  lemma FrontIsContiguous(ring: seq<byte>, ptr: nat, len: nat, k: nat)
    requires len <= |ring| && ptr < |ring| && k <= FirstRead(|ring|, ptr, len)
    ensures ring[ptr..ptr + k] == Unrolled(ring, ptr, len)[..k]
  {
  }

  lemma AdvanceDropsFront(ring: seq<byte>, ptr: nat, len: nat, k: nat)
    requires len <= |ring| && ptr < |ring| && k <= len
    ensures Unrolled(ring, Slot(|ring|, ptr + k), len - k) == Unrolled(ring, ptr, len)[k..]
  {
  }

  function Patched(was: seq<byte>, at: nat, body: seq<byte>): seq<byte>
    requires at + |body| <= |was|
  {
    was[..at] + body + was[at + |body|..]
  }

  /** Bytes written into the free piece come to stand at the end of the queue. */
  lemma WriteAddsAtEnd(was: seq<byte>, ptr: nat, len: nat, body: seq<byte>)
    requires len < |was| && ptr < |was| && |body| <= FirstFree(|was|, ptr, len)
    ensures Unrolled(Patched(was, TailOf(|was|, ptr, len), body), ptr, len + |body|) == Unrolled(was, ptr, len) + body
  {
    hide Patched, Unrolled;
    var tail := TailOf(|was|, ptr, len);
    var ring := Patched(was, tail, body);
    PatchedParts(was, tail, body);
    if ptr + len < |was| {
      WriteBehind(was, ring, ptr, len, body);
    } else {
      WriteBefore(was, ring, ptr, len, body);
    }
  }

  /** The queue does not wrap, and neither does what is written. */
  lemma WriteBehind(was: seq<byte>, ring: seq<byte>, ptr: nat, len: nat, body: seq<byte>)
    requires |ring| == |was| && ptr + len + |body| <= |was| && ptr < |was|
    requires ring[..ptr + len] == was[..ptr + len] && ring[ptr + len..ptr + len + |body|] == body
    ensures len + |body| <= |ring| && Unrolled(ring, ptr, len + |body|) == Unrolled(was, ptr, len) + body
  {
  }

  /** The queue reaches the end of the ring or wraps: what is written lies before it. */
  lemma WriteBefore(was: seq<byte>, ring: seq<byte>, ptr: nat, len: nat, body: seq<byte>)
    requires |ring| == |was| && len <= |was| && ptr < |was| <= ptr + len
    requires var tail := ptr + len - |was|;
             tail + |body| <= ptr && ring[..tail] == was[..tail] && ring[tail..tail + |body|] == body && ring[tail + |body|..] == was[tail + |body|..]
    ensures len + |body| <= |ring| && Unrolled(ring, ptr, len + |body|) == Unrolled(was, ptr, len) + body
  {
    hide Unrolled;
    var tail := ptr + len - |was|;
    var back, front := was[ptr..], was[..tail];
    DropDrop(ring, tail + |body|, ptr - tail - |body|);
    DropDrop(was, tail + |body|, ptr - tail - |body|);
    TakeSplit(ring, tail, tail + |body|);
    WrappedQueue(was, ptr, len);
    WrappedQueue(ring, ptr, len + |body|);
    Associate(back, front, body);
  }

  lemma Associate(a: seq<byte>, b: seq<byte>, c: seq<byte>)
    ensures a + (b + c) == (a + b) + c
  {
  }

  lemma DropDrop(s: seq<byte>, i: nat, j: nat)
    requires i + j <= |s|
    ensures s[i..][j..] == s[i + j..]
  {
  }

  lemma TakeSplit(s: seq<byte>, i: nat, j: nat)
    requires i <= j <= |s|
    ensures s[..j] == s[..i] + s[i..j]
  {
  }

  lemma WrappedQueue(ring: seq<byte>, ptr: nat, len: nat)
    requires len <= |ring| && ptr < |ring| <= ptr + len
    ensures Unrolled(ring, ptr, len) == ring[ptr..] + ring[..ptr + len - |ring|]
  {
  }

  lemma PatchedParts(was: seq<byte>, at: nat, body: seq<byte>)
    requires at + |body| <= |was|
    ensures var ring := Patched(was, at, body);
            && |ring| == |was| && ring[..at] == was[..at] && ring[at..at + |body|] == body
            && ring[at + |body|..] == was[at + |body|..]
  {
  }

  lemma PatchOne(was: seq<byte>, at: nat, bytes: seq<byte>, i: nat)
    requires at + |bytes| <= |was| && i < |bytes|
    ensures var ring := Patched(was, at, bytes[..i]);
            |ring| == |was| && ring[at + i := bytes[i]] == Patched(was, at, bytes[..i + 1])
  {
  }

  lemma PatchNothing(was: seq<byte>, at: nat)
    requires at <= |was|
    ensures Patched(was, at, []) == was
  {
  }

  lemma NothingAdvanced(queue: seq<byte>, taken: seq<byte>)
    ensures queue[0..] == queue && taken + queue[..0] == taken
  {
  }

  lemma SplitQueue(accepted: seq<byte>, taken: seq<byte>, queue: seq<byte>, k: nat)
    requires accepted == taken + queue && k <= |queue|
    ensures accepted == (taken + queue[..k]) + queue[k..]
  {
  }

  lemma NothingAdded(queue: seq<byte>, accepted: seq<byte>, body: seq<byte>)
    requires body == []
    ensures queue + body == queue && accepted + body == accepted
  {
  }

  lemma AddToQueue(accepted: seq<byte>, taken: seq<byte>, queue: seq<byte>, body: seq<byte>)
    requires accepted == taken + queue
    ensures accepted + body == taken + (queue + body)
  {
  }

  lemma AtTheEnd(cap: nat)
    requires cap > 0
    ensures Wrapped(cap, cap) == 0
  {
  }

  /** The first piece that can be read ends with the queue or at the end of the ring. */
  lemma FirstReadEnds(cap: nat, ptr: nat, len: nat)
    requires ptr < cap && len <= cap
    ensures FirstRead(cap, ptr, len) == len || ptr + FirstRead(cap, ptr, len) == cap
  {
  }

  /** The first free piece ends where the ring is full or at its end. */
  lemma FirstFreeEnds(cap: nat, ptr: nat, len: nat)
    requires ptr < cap && len < cap
    ensures len + FirstFree(cap, ptr, len) == cap || ptr + len + FirstFree(cap, ptr, len) == cap
  {
    var x := ptr + len;
    assert Wrapped(x, cap) == if x < cap then x else x - cap by {
      if x < cap { assert x % cap == x; } else { assert x == cap * 1 + (x - cap); }
    }
  }

  // ----- the close state -----

  /** Shared with the other end, which sets it without taking the lock. */
  class CloseState {
    var closed: bool
    var readCloser: Option<Task>
    var writeCloser: Option<Task>

    constructor ()
      ensures !closed && readCloser == writeCloser == None
    {
      closed, readCloser, writeCloser := false, None, None;
    }

    method CloseWrite() returns (w: Option<Task>)
      modifies this
      ensures closed && w == old(readCloser) && readCloser == None && writeCloser == old(writeCloser)
    {
      closed := true;
      w := readCloser;
      readCloser := None;
    }

    method CloseRead() returns (w: Option<Task>)
      modifies this
      ensures closed && w == old(writeCloser) && writeCloser == None && readCloser == old(readCloser)
    {
      closed := true;
      w := writeCloser;
      writeCloser := None;
    }
  }

  // ----- the stream -----

  datatype Poll<+T> = Ready(value: T) | BrokenPipe | Pending

  function Concat(bufs: seq<seq<byte>>): seq<byte> { if bufs == [] then [] else bufs[0] + Concat(bufs[1..]) }

  lemma {:induction false} ConcatSnoc(bufs: seq<seq<byte>>, b: seq<byte>)
    ensures Concat(bufs + [b]) == Concat(bufs) + b
  {
    if bufs == [] {
      assert [b][1..] == [];
    } else {
      assert (bufs + [b])[1..] == bufs[1..] + [b];
      ConcatSnoc(bufs[1..], b);
    }
  }

  /** `accepted` and `taken` are the bytes that went in and came out so far. */
  class SimplexStream {
    const buffer: array<byte>
    var ptr: nat
    var len: nat
    const close: CloseState
    var readWaker: Option<Task>
    var writeWaker: Option<Task>
    ghost var accepted: seq<byte>
    ghost var taken: seq<byte>
    ghost var woken: seq<Task>

    predicate InBounds() reads this { len <= buffer.Length && (ptr < buffer.Length || buffer.Length == ptr == 0) }

    ghost function Contents(): seq<byte>
      reads this, buffer
      requires InBounds()
    {
      Unrolled(buffer[..], ptr, len)
    }

    /** Bytes come out in the order in which they went in, and at most `capacity` of
        them are on the way. A reader is parked only on an empty ring, a writer only
        on a full one. */
    ghost predicate Valid() reads this, buffer {
      && InBounds() && accepted == taken + Contents()
      && (readWaker.Some? ==> len == 0) && (writeWaker.Some? ==> len == buffer.Length)
    }

    constructor (capacity: nat, close: CloseState)
      ensures Valid() && fresh(buffer) && buffer.Length == capacity && this.close == close
      ensures accepted == taken == [] && woken == [] && Contents() == [] && readWaker == writeWaker == None
    {
      buffer := new byte[capacity](_ => 0);
      ptr, len, this.close, readWaker, writeWaker := 0, 0, close, None, None;
      accepted, taken, woken := [], [], [];
    }

    function Remaining(): nat reads this { len }

    function RemainingMut(): nat
      reads this
      requires InBounds()
    {
      buffer.Length - len
    }

    /** The first contiguous piece of what can be read. */
    method Get() returns (src: seq<byte>)
      requires Valid()
      ensures src == Contents()[..FirstRead(buffer.Length, ptr, len)]
      ensures src == [] <==> len == 0
    {
      if len == 0 { return []; }
      var cap := buffer.Length;
      var end := ptr + len;
      FrontIsContiguous(buffer[..], ptr, len, FirstRead(cap, ptr, len));
      if end <= cap {
        src := buffer[ptr..end];
      } else {
        src := buffer[ptr..cap];
      }
    }

    /** Data, or the end once all of it was read, or `Pending` with the task parked. */
    method PollGet(task: Task) returns (r: Poll<seq<byte>>)
      requires Valid()
      modifies this`readWaker, close`readCloser
      ensures Valid()
      ensures match r
              case Ready(src) => (src == [] ==> len == 0 && close.closed) && src == Contents()[..FirstRead(buffer.Length, ptr, len)]
              case Pending => len == 0 && !close.closed && readWaker == close.readCloser == Some(task)
              case BrokenPipe => false
      ensures len > 0 ==> readWaker == old(readWaker) && close.readCloser == old(close.readCloser)
    {
      if len > 0 {
        var src := Get();
        return Ready(src);
      }
      if close.closed { return Ready([]); }
      readWaker := Some(task);
      close.readCloser := Some(task);
      if close.closed {
        r := Ready([]);
      } else {
        r := Pending;
      }
    }

    /** The start and the length of the first contiguous piece of free space. */
    method GetMut() returns (tail: nat, free: nat)
      requires Valid()
      ensures free == FirstFree(buffer.Length, ptr, len)
      ensures free > 0 ==> tail == TailOf(buffer.Length, ptr, len) && tail + free <= buffer.Length
      ensures free == 0 <==> len == buffer.Length
    {
      var cap := buffer.Length;
      if cap - len == 0 { return 0, 0; }
      tail := Wrapped(ptr + len, cap);
      if tail < ptr {
        free := ptr - tail;
      } else {
        free := cap - tail;
      }
    }

    method PollMut(task: Task) returns (r: Poll<(nat, nat)>)
      requires Valid()
      modifies this`writeWaker, close`writeCloser
      ensures Valid()
      ensures match r
              case BrokenPipe => close.closed
              case Pending => !close.closed && len == buffer.Length && writeWaker == close.writeCloser == Some(task)
              case Ready((tail, free)) =>
                && !close.closed && 0 < free == FirstFree(buffer.Length, ptr, len) && free <= buffer.Length - len
                && tail == TailOf(buffer.Length, ptr, len) && tail + free <= buffer.Length
    {
      if close.closed { return BrokenPipe; }
      if RemainingMut() == 0 {
        writeWaker := Some(task);
        close.writeCloser := Some(task);
        if close.closed { return BrokenPipe; }
        return Pending;
      }
      var tail, free := GetMut();
      r := Ready((tail, free));
    }

    /** `amt` bytes were read; whoever waits for space is woken. */
    method Advance(amt: nat)
      requires Valid() && amt <= len
      modifies this
      ensures Valid() && Contents() == old(Contents())[amt..] && taken == old(taken) + old(Contents())[..amt]
      ensures accepted == old(accepted) && readWaker == old(readWaker)
      ensures len == old(len) - amt && (old(ptr) + amt == buffer.Length && amt > 0 ==> ptr == 0)
      ensures amt == 0 ==> writeWaker == old(writeWaker) && woken == old(woken)
      ensures amt > 0 ==> writeWaker == None && woken == old(woken) + (if old(writeWaker).Some? then [old(writeWaker).value] else [])
    {
      hide Unrolled, Wrapped, FirstRead, FirstFree, TailOf;
      if amt == 0 {
        NothingAdvanced(Contents(), taken);
        return;
      }
      AdvanceDropsFront(buffer[..], ptr, len, amt);
      if ptr + amt == buffer.Length { AtTheEnd(buffer.Length); }
      SplitQueue(accepted, taken, Contents(), amt);
      taken := taken + Contents()[..amt];
      ptr := Wrapped(ptr + amt, buffer.Length);
      len := len - amt;
      if writeWaker.Some? {
        woken := woken + [writeWaker.value];
        writeWaker := None;
      }
    }

    /** `amt` bytes, `body`, were put into the free space of the ring `was`; whoever
        waits for data is woken. */
    method AdvanceMut(amt: nat, ghost was: seq<byte>, ghost body: seq<byte>)
      requires InBounds() && |was| == buffer.Length && accepted == taken + Unrolled(was, ptr, len)
      requires (readWaker.Some? ==> len == 0) && (writeWaker.Some? ==> len == buffer.Length)
      requires |body| == amt <= FirstFree(buffer.Length, ptr, len) && (amt > 0 ==> len < buffer.Length)
      requires buffer[..] == if body == [] then was else Patched(was, TailOf(|was|, ptr, len), body)
      modifies this
      ensures Valid() && Contents() == Unrolled(was, old(ptr), old(len)) + body && accepted == old(accepted) + body
      ensures taken == old(taken) && (amt == 0 ==> writeWaker == old(writeWaker)) && ptr == old(ptr) && len == old(len) + amt
      ensures amt == 0 ==> readWaker == old(readWaker) && woken == old(woken)
      ensures amt > 0 ==> readWaker == None && woken == old(woken) + (if old(readWaker).Some? then [old(readWaker).value] else [])
    {
      hide Unrolled, Patched, FirstRead, FirstFree, TailOf;
      if amt == 0 {
        NothingAdded(Unrolled(was, ptr, len), accepted, body);
        return;
      }
      WriteAddsAtEnd(was, ptr, len, body);
      AddToQueue(accepted, taken, Unrolled(was, ptr, len), body);
      accepted := accepted + body;
      len := len + amt;
      if readWaker.Some? {
        woken := woken + [readWaker.value];
        readWaker := None;
      }
    }

    /** Whoever waited has been woken, if there was a reason. */
    ghost predicate Woke(reason: bool, waiting: Option<Task>, before: seq<Task>) reads this {
      woken == before + if reason && waiting.Some? then [waiting.value] else []
    }

    /** A read of up to `n` bytes takes the front of the queue. It stops short of `n` only at
        the end of the queue or of the ring. */
    method PollRead(task: Task, n: nat) returns (r: Poll<seq<byte>>)
      requires Valid()
      modifies this, close`readCloser
      ensures Valid() && accepted == old(accepted)
      ensures match r
              case Ready(got) =>
                && taken == old(taken) + got && (got == [] ==> n == 0 || (old(Contents()) == [] && close.closed))
                && |got| <= n && old(Contents()) == got + Contents() && (|got| < n ==> Contents() == [] || ptr == 0)
                && Woke(got != [], old(writeWaker), old(woken))
              case Pending =>
                && taken == old(taken) && Contents() == old(Contents()) == [] && !close.closed && woken == old(woken)
                && readWaker == close.readCloser == Some(task)
              case BrokenPipe => false
    {
      hide Unrolled, FirstRead, FirstFree, TailOf, Wrapped;
      var g := PollGet(task);
      if g.Pending? { return Pending; }
      if g.BrokenPipe? { return BrokenPipe; }
      var src := g.value;
      if src == [] { return Ready([]); }
      var k := MinNat(n, |src|);
      ghost var queue := Contents();
      FirstReadEnds(buffer.Length, ptr, len);
      assert queue[..k] == src[..k] && queue == queue[..k] + queue[k..];
      Advance(k);
      r := Ready(src[..k]);
    }

    /** `copy_from_slice` at a place in the ring. */
    method CopyIn(at: nat, bytes: seq<byte>)
      requires at + |bytes| <= buffer.Length
      modifies buffer
      ensures buffer[..] == Patched(old(buffer[..]), at, bytes)
    {
      hide Patched;
      ghost var was := buffer[..];
      PatchNothing(was, at);
      for i := 0 to |bytes|
        invariant buffer[..] == Patched(was, at, bytes[..i])
      {
        PatchOne(was, at, bytes, i);
        buffer[at + i] := bytes[i];
        assert buffer[..] == Patched(was, at, bytes[..i])[at + i := bytes[i]];
      }
      assert bytes[..|bytes|] == bytes;
    }

    /** A write takes as many bytes as fit the first piece of free space: it stops short only
        when the ring is full, or at its end. */
    method PollWrite(task: Task, buf: seq<byte>) returns (r: Poll<nat>)
      requires Valid()
      modifies this, buffer, close`writeCloser
      ensures Valid() && taken == old(taken)
      ensures match r
              case Ready(n) =>
                && n <= |buf| && accepted == old(accepted) + buf[..n] && (buf != [] ==> n > 0) && !close.closed
                && (n < |buf| ==> len == buffer.Length || ptr + len == buffer.Length) && Woke(n > 0, old(readWaker), old(woken))
              case Pending =>
                && accepted == old(accepted) && len == buffer.Length && !close.closed && woken == old(woken)
                && writeWaker == close.writeCloser == Some(task)
              case BrokenPipe => accepted == old(accepted) && close.closed
    {
      hide Unrolled, FirstRead, FirstFree, TailOf, Patched;
      var m := PollMut(task);
      if m.Pending? { return Pending; }
      if m.BrokenPipe? { return BrokenPipe; }
      var (tail, free) := m.value;
      var n := MinNat(|buf|, free);
      FirstFreeEnds(buffer.Length, ptr, len);
      ghost var was := buffer[..];
      CopyIn(tail, buf[..n]);
      PatchNothing(was, tail);
      AdvanceMut(n, was, buf[..n]);
      r := Ready(n);
    }

    /** Copy buffer after buffer into one piece of free space. */
    method CopyAll(tail: nat, free: nat, bufs: seq<seq<byte>>) returns (amt: nat)
      requires tail + free <= buffer.Length
      modifies buffer
      ensures amt == MinNat(free, |Concat(bufs)|)
      ensures buffer[..] == Patched(old(buffer[..]), tail, Concat(bufs)[..amt])
    {
      hide CopiedTo, Patched, Concat;
      amt := 0;
      var k := 0;
      ghost var was := buffer[..];
      NothingCopied(was, tail, free, bufs);
      while k < |bufs|
        invariant k <= |bufs| && was == old(buffer[..]) && CopiedTo(was, buffer[..], tail, free, bufs, k, amt)
      {
        if amt >= free { break; }
        CopiedBounds(was, buffer[..], tail, free, bufs, k, amt);
        var n := MinNat(|bufs[k]|, free - amt);
        ghost var ring := buffer[..];
        CopyIn(tail + amt, bufs[k][..n]);
        CopiedMore(was, ring, buffer[..], tail, free, bufs, k, amt, n);
        amt := amt + n;
        k := k + 1;
      }
      CopiedEverything(was, buffer[..], tail, free, bufs, k, amt);
    }

    /** A write of several buffers fills the same piece, buffer after buffer. */
    method PollWriteVectored(task: Task, bufs: seq<seq<byte>>) returns (r: Poll<nat>)
      requires Valid()
      modifies this, buffer, close`writeCloser
      ensures Valid() && taken == old(taken)
      ensures match r
              case Ready(n) =>
                && n <= |Concat(bufs)| && accepted == old(accepted) + Concat(bufs)[..n] && !close.closed
                && (Concat(bufs) != [] ==> n > 0)
                && (n < |Concat(bufs)| ==> len == buffer.Length || ptr + len == buffer.Length) && Woke(n > 0, old(readWaker), old(woken))
              case Pending =>
                && accepted == old(accepted) && len == buffer.Length && !close.closed && woken == old(woken)
                && writeWaker == close.writeCloser == Some(task)
              case BrokenPipe => accepted == old(accepted) && close.closed
    {
      hide Concat, Unrolled, FirstRead, FirstFree, TailOf, Patched;
      var m := PollMut(task);
      if m.Pending? { return Pending; }
      if m.BrokenPipe? { return BrokenPipe; }
      var (tail, free) := m.value;
      FirstFreeEnds(buffer.Length, ptr, len);
      ghost var was := buffer[..];
      var amt := CopyAll(tail, free, bufs);
      PatchNothing(was, tail);
      AdvanceMut(amt, was, Concat(bufs)[..amt]);
      r := Ready(amt);
    }
  }

  /** The first `k` buffers were copied into the ring `was`, as far as they fit. */
  ghost predicate CopiedTo(was: seq<byte>, ring: seq<byte>, tail: nat, free: nat, bufs: seq<seq<byte>>, k: nat, amt: nat) {
    && k <= |bufs| && tail + free <= |was| && amt == MinNat(free, |Concat(bufs[..k])|)
    && ring == Patched(was, tail, Concat(bufs[..k])[..amt])
  }

  lemma NothingCopied(was: seq<byte>, tail: nat, free: nat, bufs: seq<seq<byte>>)
    requires tail + free <= |was|
    ensures CopiedTo(was, was, tail, free, bufs, 0, 0)
  {
  }

  lemma CopiedBounds(was: seq<byte>, ring: seq<byte>, tail: nat, free: nat, bufs: seq<seq<byte>>, k: nat, amt: nat)
    requires CopiedTo(was, ring, tail, free, bufs, k, amt)
    ensures |ring| == |was| && amt <= free && tail + free <= |was|
  {
  }

  /** `n` bytes of buffer `k` come behind all the buffers before it. */
  lemma CopiedMore(was: seq<byte>, ring: seq<byte>, next: seq<byte>, tail: nat, free: nat, bufs: seq<seq<byte>>, k: nat, amt: nat, n: nat)
    requires CopiedTo(was, ring, tail, free, bufs, k, amt) && k < |bufs| && amt < free && n == MinNat(|bufs[k]|, free - amt)
    requires |ring| == |was| && next == Patched(ring, tail + amt, bufs[k][..n])
    ensures CopiedTo(was, next, tail, free, bufs, k + 1, amt + n)
  {
    assert bufs[..k + 1] == bufs[..k] + [bufs[k]];
    ConcatSnoc(bufs[..k], bufs[k]);
    var before := Concat(bufs[..k]);
    hide Concat;
    assert before[..amt] == before;
    assert (before + bufs[k])[..amt + n] == before + bufs[k][..n];
    PatchMore(was, tail, before, bufs[k][..n]);
  }

  lemma CopiedEverything(was: seq<byte>, ring: seq<byte>, tail: nat, free: nat, bufs: seq<seq<byte>>, k: nat, amt: nat)
    requires CopiedTo(was, ring, tail, free, bufs, k, amt) && (k == |bufs| || amt >= free)
    ensures amt == MinNat(free, |Concat(bufs)|) && ring == Patched(was, tail, Concat(bufs)[..amt])
  {
    ConcatPrefix(bufs, k);
    assert k == |bufs| ==> bufs[..k] == bufs;
    hide Patched;
    assert Concat(bufs)[..amt] == Concat(bufs[..k])[..amt];
  }

  lemma PatchMore(was: seq<byte>, at: nat, one: seq<byte>, two: seq<byte>)
    requires at + |one| + |two| <= |was|
    ensures Patched(Patched(was, at, one), at + |one|, two) == Patched(was, at, one + two)
  {
  }

  /** The buffers written so far come first in all of them. */
  lemma {:induction false} ConcatPrefix(bufs: seq<seq<byte>>, k: nat)
    requires k <= |bufs|
    ensures Concat(bufs[..k]) <= Concat(bufs)
    decreases |bufs| - k
  {
    if k < |bufs| {
      assert bufs[..k + 1] == bufs[..k] + [bufs[k]];
      ConcatSnoc(bufs[..k], bufs[k]);
      ConcatPrefix(bufs, k + 1);
    } else {
      assert bufs[..k] == bufs;
    }
  }

  // ----- many calls -----

  datatype Op = Write(data: seq<byte>) | WriteAll(bufs: seq<seq<byte>>) | Read(n: nat) | Close

  /** Over any sequence of calls the bytes read are a prefix of those accepted, and
      never more than the capacity behind; no read gives more than it was asked for. Once a
      read that asked for bytes has got the end instead, everything accepted has been read,
      and no more will be accepted. */
  method Session(capacity: nat, ops: seq<Op>) returns (accepted: seq<byte>, pieces: seq<seq<byte>>, ended: bool)
    ensures |pieces| == |ops| && forall k :: 0 <= k < |ops| ==> |pieces[k]| <= if ops[k].Read? then ops[k].n else 0
    ensures Concat(pieces) <= accepted && |accepted| - |Concat(pieces)| <= capacity
    ensures ended ==> Concat(pieces) == accepted
  {
    hide Concat, Unrolled, FirstRead, FirstFree, TailOf;
    var close := new CloseState();
    var stream := new SimplexStream(capacity, close);
    accepted, pieces, ended := [], [], false;
    NoPieces();
    for k := 0 to |ops|
      invariant stream.Valid() && fresh(stream) && fresh(stream.buffer) && fresh(close) && stream.close == close
      invariant stream.buffer.Length == capacity && stream.accepted == accepted && stream.taken == Concat(pieces)
      invariant |pieces| == k && forall i :: 0 <= i < k ==> |pieces[i]| <= if ops[i].Read? then ops[i].n else 0
      invariant ended ==> Concat(pieces) == accepted && close.closed
    {
      var piece: seq<byte> := [];
      match ops[k] {
        case Write(data) =>
          var r := stream.PollWrite(0, data);
          if r.Ready? { accepted := accepted + data[..r.value]; }
        case WriteAll(bufs) =>
          var r := stream.PollWriteVectored(0, bufs);
          if r.Ready? { accepted := accepted + Concat(bufs)[..r.value]; }
        case Read(n) =>
          var r := stream.PollRead(1, n);
          if r.Ready? {
            ended := ended || (n > 0 && r.value == []);
            piece := r.value;
          }
        case Close =>
          var w := close.CloseWrite();
      }
      ConcatSnoc(pieces, piece);
      pieces := pieces + [piece];
    }
  }

  lemma NoPieces()
    ensures Concat([]) == []
  {
  }
}
