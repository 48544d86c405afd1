/** The size line of a chunk: hexadecimal digits, perhaps with extensions
    (spansy/src/http/span.rs; section 7.1 of RFC 9112). */
module ChunkSize {
  import opened Basics

  const USIZE_MAX: int := 0xFFFF_FFFF_FFFF_FFFF
  const SEMICOLON: byte := 59
  const PLUS: byte := 43

  // ----- UTF-8 -----

  predicate Cont(s: seq<byte>, i: nat) { i < |s| && 0x80 <= s[i] < 0xC0 }

  predicate Within(s: seq<byte>, i: nat, lo: int, hi: int) { i < |s| && lo <= s[i] <= hi }

  /** The length of the character at the start, or 0 if there is no valid one. */
  function CharLen(s: seq<byte>): (n: nat)
    requires s != []
    ensures n <= |s|
  {
    if s[0] < 0x80 then 1
    else if 0xC2 <= s[0] <= 0xDF then (if Cont(s, 1) then 2 else 0)
    else if s[0] == 0xE0 then (if Within(s, 1, 0xA0, 0xBF) && Cont(s, 2) then 3 else 0)
    else if s[0] == 0xED then (if Within(s, 1, 0x80, 0x9F) && Cont(s, 2) then 3 else 0)
    else if 0xE1 <= s[0] <= 0xEF then (if Cont(s, 1) && Cont(s, 2) then 3 else 0)
    else if s[0] == 0xF0 then (if Within(s, 1, 0x90, 0xBF) && Cont(s, 2) && Cont(s, 3) then 4 else 0)
    else if 0xF1 <= s[0] <= 0xF3 then (if Cont(s, 1) && Cont(s, 2) && Cont(s, 3) then 4 else 0)
    else if s[0] == 0xF4 then (if Within(s, 1, 0x80, 0x8F) && Cont(s, 2) && Cont(s, 3) then 4 else 0)
    else 0
  }

  predicate ValidUtf8(s: seq<byte>)
    decreases |s|
  {
    s == [] || (CharLen(s) > 0 && ValidUtf8(s[CharLen(s)..]))
  }

  predicate Ascii(s: seq<byte>) { forall i :: 0 <= i < |s| ==> s[i] < 0x80 }

  lemma {:induction false} AsciiIsUtf8(s: seq<byte>, rest: seq<byte>)
    requires Ascii(s)
    ensures ValidUtf8(s + rest) <==> ValidUtf8(rest)
  {
    if s == [] {
      assert s + rest == rest;
    } else {
      assert (s + rest)[1..] == s[1..] + rest;
      AsciiIsUtf8(s[1..], rest);
    }
  }

  // ----- the size -----

  /** White space in the ASCII range. */
  predicate Blank(b: byte) { b == 32 || 9 <= b <= 13 }

  function TrimStart(s: seq<byte>): seq<byte> { if s != [] && Blank(s[0]) then TrimStart(s[1..]) else s }

  function TrimEnd(s: seq<byte>): seq<byte> { if s != [] && Blank(s[|s| - 1]) then TrimEnd(s[..|s| - 1]) else s }

  /** What comes before the first semicolon. */
  function SizePart(s: seq<byte>): seq<byte> {
    if s == [] || s[0] == SEMICOLON then [] else [s[0]] + SizePart(s[1..])
  }

  function HexDigit(b: byte): Option<nat> {
    if 48 <= b <= 57 then Some(b - 48)
    else if 65 <= b <= 70 then Some(b - 55)
    else if 97 <= b <= 102 then Some(b - 87)
    else None
  }

  /** The value of a string of digits, however long. */
  function HexValue(s: seq<byte>): Option<nat> {
    if s == [] then Some(0)
    else
      match (HexValue(s[..|s| - 1]), HexDigit(s[|s| - 1]))
      case (Some(n), Some(d)) => Some(16 * n + d)
      case _ => None
  }

  /** `usize::from_str_radix(s, 16)`. */
  function FromHex(s: seq<byte>): Option<nat> {
    if s == [] || s == [PLUS] then None
    else
      match HexValue(if s[0] == PLUS then s[1..] else s)
      case Some(n) => if n <= USIZE_MAX then Some(n) else None
      case None => None
  }

  function ParseSize(line: seq<byte>): Option<nat> {
    if !ValidUtf8(line) then None else FromHex(TrimEnd(TrimStart(SizePart(line))))
  }

  // ----- the sizes that a sender writes -----

  function DigitFor(d: nat, upper: bool): byte
    requires d < 16
  {
    if d < 10 then 48 + d else if upper then 55 + d else 87 + d
  }

  function Hex(n: nat, upper: bool): seq<byte> {
    (if n < 16 then [] else Hex(n / 16, upper)) + [DigitFor(n % 16, upper)]
  }

  predicate Digits(s: seq<byte>) { forall i :: 0 <= i < |s| ==> HexDigit(s[i]).Some? }

  lemma {:induction false} HexMeans(n: nat, upper: bool)
    ensures HexValue(Hex(n, upper)) == Some(n) && Digits(Hex(n, upper)) && Hex(n, upper) != []
  {
    var front := if n < 16 then [] else Hex(n / 16, upper);
    assert Hex(n, upper)[..|front|] == front;
    if n >= 16 { HexMeans(n / 16, upper); }
  }

  lemma {:induction false} DigitsAreTheSize(s: seq<byte>, ext: seq<byte>)
    requires Digits(s) && (ext == [] || ext[0] == SEMICOLON)
    ensures SizePart(s + ext) == s && Ascii(s)
  {
    if s != [] {
      assert (s + ext)[1..] == s[1..] + ext;
      DigitsAreTheSize(s[1..], ext);
    } else {
      assert s + ext == ext;
    }
  }

  /** A size in hexadecimal, of either case, with any extensions behind a semicolon,
      is read back. */
  lemma SizeRoundTrip(n: nat, upper: bool, ext: seq<byte>)
    requires n <= USIZE_MAX && ValidUtf8(ext) && (ext == [] || ext[0] == SEMICOLON)
    ensures ParseSize(Hex(n, upper) + ext) == Some(n)
  {
    var s := Hex(n, upper);
    HexMeans(n, upper);
    DigitsAreTheSize(s, ext);
    AsciiIsUtf8(s, ext);
    assert HexDigit(s[0]).Some? && HexDigit(s[|s| - 1]).Some?;
  }
}
