/** Wire frames of the multiplexer: the 14-byte header fields and the body
    (mux/mux/src/frame.rs, mux/mux/src/frame/header.rs). */
module Frames {
  import opened Basics

  const U32_MAX: int := 0xFFFF_FFFF
  const USIZE_MAX: int := 0xFFFF_FFFF_FFFF_FFFF
  const DEFAULT_CREDIT: int := 256 * 1024
  const MAX_BODY: int := 1024 * 1024
  const HEADER_SIZE: int := 14

  datatype Tag = Data | WindowUpdate | Ping | GoAway

  /** The flag byte, bit by bit; `high` holds the four bits that have no name. */
  datatype Flags = Flags(fin: bool, rst: bool, syn: bool, ack: bool, high: int)

  const NO_FLAGS := Flags(false, false, false, false, 0)

  /** The eight id bytes, read as one number. */
  type StreamId = n: int | 0 <= n < 0x1_0000_0000_0000_0000

  const SESSION: StreamId := 0

  datatype Header = Header(tag: Tag, flags: Flags, length: int, id: StreamId)

  datatype Frame = Frame(header: Header, body: seq<byte>)

  predicate WellFormedHeader(h: Header) {
    0 <= h.length <= U32_MAX && 0 <= h.flags.high < 16
  }

  /** Data frames carry exactly `length` body bytes; no other frame has a body. */
  predicate WellFormed(f: Frame) {
    && WellFormedHeader(f.header)
    && (if f.header.tag.Data? then f.header.length == |f.body| <= MAX_BODY else f.body == [])
  }

  function DataFrame(id: StreamId, body: seq<byte>, syn: bool): Frame {
    Frame(Header(Data, NO_FLAGS.(syn := syn), |body|, id), body)
  }

  function FinFrame(id: StreamId): Frame {
    Frame(Header(Data, NO_FLAGS.(fin := true), 0, id), [])
  }

  function RstFrame(id: StreamId): Frame {
    Frame(Header(Data, NO_FLAGS.(rst := true), 0, id), [])
  }

  function CreditFrame(id: StreamId, credit: int): Frame {
    Frame(Header(WindowUpdate, NO_FLAGS, credit, id), [])
  }

  function PingFrame(nonce: int): Frame {
    Frame(Header(Ping, NO_FLAGS.(syn := true), nonce, SESSION), [])
  }

  function PongFrame(nonce: int): Frame {
    Frame(Header(Ping, NO_FLAGS.(ack := true), nonce, SESSION), [])
  }

  function GoAwayFrame(code: int): Frame {
    Frame(Header(GoAway, NO_FLAGS, code, SESSION), [])
  }

  const TERM := GoAwayFrame(0)
  const PROTOCOL_ERROR := GoAwayFrame(1)
}
