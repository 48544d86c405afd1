/** The receive buffer of a stream: a queue of byte chunks with a cursor in the first
    one and a cached length (mux/mux/src/chunks.rs). */
module ReceiveBuffer {
  import opened Basics

  /** A chunk and how much of it has been read. */
  datatype Chunk = Chunk(data: seq<byte>, offset: nat)

  predicate ChunkOk(c: Chunk) { c.data != [] && c.offset <= |c.data| }

  function Rest(c: Chunk): seq<byte>
    requires ChunkOk(c)
  {
    c.data[c.offset..]
  }

  predicate AllOk(cs: seq<Chunk>) { forall i :: 0 <= i < |cs| ==> ChunkOk(cs[i]) }

  /** The bytes that are still to be read. */
  function Joined(cs: seq<Chunk>): seq<byte>
    requires AllOk(cs)
  {
    if cs == [] then [] else Rest(cs[0]) + Joined(cs[1..])
  }

  function TotalSize(cs: seq<Chunk>): nat { if cs == [] then 0 else |cs[0].data| + TotalSize(cs[1..]) }

  lemma {:induction false} JoinedSnoc(cs: seq<Chunk>, c: Chunk)
    requires AllOk(cs) && ChunkOk(c)
    ensures Joined(cs + [c]) == Joined(cs) + Rest(c) && TotalSize(cs + [c]) == TotalSize(cs) + |c.data|
  {
    if cs == [] {
      assert [c][1..] == [];
    } else {
      assert (cs + [c])[1..] == cs[1..] + [c];
      JoinedSnoc(cs[1..], c);
    }
  }

  /** Only the first chunk may have been read from. */
  predicate UnreadBehind(cs: seq<Chunk>) { forall i :: 0 < i < |cs| ==> cs[i].offset == 0 }

  lemma {:induction false} SizeIsLength(cs: seq<Chunk>)
    requires AllOk(cs) && UnreadBehind(cs)
    ensures |Joined(cs)| == TotalSize(cs) - if cs == [] then 0 else cs[0].offset
  {
    if |cs| > 1 {
      assert cs[1].offset == 0 && cs[1..][0] == cs[1];
      SizeIsLength(cs[1..]);
    }
  }

  function Least(a: nat, b: nat): nat { if a <= b then a else b }

  class Chunks {
    var chunks: seq<Chunk>
    var len: nat

    ghost predicate Valid() reads this { AllOk(chunks) && UnreadBehind(chunks) && len == TotalSize(chunks) }

    ghost function Contents(): seq<byte>
      reads this
      requires Valid()
    {
      Joined(chunks)
    }

    constructor ()
      ensures Valid() && Contents() == []
    {
      chunks, len := [], 0;
    }

    /** The number of bytes still to be read, without counting them. */
    method Len() returns (n: nat)
      requires Valid()
      ensures n == |Contents()|
    {
      SizeIsLength(chunks);
      n := if chunks == [] then len else len - chunks[0].offset;
    }

    method Push(x: seq<byte>)
      requires Valid()
      modifies this
      ensures Valid() && Contents() == old(Contents()) + x
    {
      len := len + |x|;
      if x != [] {
        JoinedSnoc(chunks, Chunk(x, 0));
        chunks := chunks + [Chunk(x, 0)];
      }
    }

    /** Take the first chunk off, read or not. */
    method Pop() returns (c: Option<Chunk>)
      requires Valid()
      modifies this
      ensures Valid() && (c.None? <==> old(chunks) == []) && |chunks| <= |old(chunks)|
      ensures c.Some? ==> c.value == old(chunks)[0] && ChunkOk(c.value) && old(Contents()) == Rest(c.value) + Contents() && |chunks| < |old(chunks)|
    {
      if chunks == [] { return None; }
      c := Some(chunks[0]);
      len := len - |chunks[0].data|;
      assert forall i :: 0 <= i < |chunks[1..]| ==> chunks[1..][i].offset == 0;
      chunks := chunks[1..];
    }

    /** Move the cursor of the first chunk. */
    method AdvanceFront(n: nat)
      requires Valid() && chunks != [] && n <= |Rest(chunks[0])|
      modifies this
      ensures Valid() && Contents() == old(Contents())[n..] && |chunks| == |old(chunks)|
      ensures Rest(chunks[0]) == old(Rest(chunks[0]))[n..] && chunks[1..] == old(chunks)[1..]
    {
      var c := chunks[0];
      assert Rest(Chunk(c.data, c.offset + n)) == Rest(c)[n..];
      chunks := [Chunk(c.data, c.offset + n)] + chunks[1..];
    }

    /** The copy loop of a read: empty chunks are dropped, full ones cut, until `limit`
        bytes are copied or nothing is left. */
    method Read(limit: nat) returns (got: seq<byte>)
      requires Valid()
      modifies this
      ensures Valid()
      ensures got == old(Contents())[..Least(limit, |old(Contents())|)]
      ensures Contents() == old(Contents())[Least(limit, |old(Contents())|)..]
    {
      got := [];
      while chunks != []
        invariant Valid() && |got| <= limit && old(Contents()) == got + Contents()
        decreases |Contents()|, |chunks|
      {
        var front := chunks[0];
        if |front.data| - front.offset == 0 {
          var dropped := Pop();
          continue;
        }
        ghost var before := Contents();
        var k := Least(|front.data| - front.offset, limit - |got|);
        assert front.data[front.offset..front.offset + k] == Rest(front)[..k] == before[..k];
        assert got + before == (got + before[..k]) + before[k..];
        got := got + front.data[front.offset..front.offset + k];
        AdvanceFront(k);
        if |got| == limit { break; }
      }
    }
  }
}
