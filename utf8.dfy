/** `bytes.decode()` with its default strict UTF-8 codec: overlong forms,
    surrogates and code points above U+10FFFF raise UnicodeDecodeError. */
module Utf8 {
  import opened Wrappers
  import opened PyValues

  predicate IsContinuation(b: byte)
  {
    0x80 <= b <= 0xBF
  }

  /** The first character of `b` and the number of bytes it takes. */
  function DecodeFirst(b: seq<byte>): (r: Option<(char, nat)>)
    requires b != []
    ensures r.Some? ==> 1 <= r.value.1 <= |b|
  {
    var b0: int := b[0];
    var b1: int := if |b| >= 2 then b[1] else 0;
    var b2: int := if |b| >= 3 then b[2] else 0;
    var b3: int := if |b| >= 4 then b[3] else 0;
    if b0 < 0x80 then Some((b0 as char, 1))
    else if 0xC2 <= b0 <= 0xDF then
      if |b| >= 2 && IsContinuation(b[1]) then
        Some((((b0 - 0xC0) * 64 + (b1 - 0x80)) as char, 2))
      else None
    else if 0xE0 <= b0 <= 0xEF then
      var lo := if b0 == 0xE0 then 0xA0 else 0x80;
      var hi := if b0 == 0xED then 0x9F else 0xBF;
      if |b| >= 3 && lo <= b1 <= hi && IsContinuation(b[2]) then
        Some((((b0 - 0xE0) * 4096 + (b1 - 0x80) * 64 + (b2 - 0x80)) as char, 3))
      else None
    else if 0xF0 <= b0 <= 0xF4 then
      var lo := if b0 == 0xF0 then 0x90 else 0x80;
      var hi := if b0 == 0xF4 then 0x8F else 0xBF;
      if |b| >= 4 && lo <= b1 <= hi && IsContinuation(b[2]) && IsContinuation(b[3]) then
        Some((((b0 - 0xF0) * 262144 + (b1 - 0x80) * 4096 + (b2 - 0x80) * 64 + (b3 - 0x80)) as char, 4))
      else None
    else None
  }

  /** `bytes.decode()`: the characters of the successive sequences, or
      UnicodeDecodeError at the first malformed one. */
  function Decode(b: seq<byte>): (r: Result<string>)
    ensures r.Failure? ==> r.error.kind == "UnicodeDecodeError"
    ensures r.Success? ==> |r.value| <= |b|
    ensures r.Success? && b != [] ==> DecodeFirst(b).Some? && r.value != [] && r.value[0] == DecodeFirst(b).value.0
    ensures b == [] ==> r == Success("")
    decreases |b|
  {
    if b == [] then Success("")
    else
      match DecodeFirst(b)
      case None => Failure(Raised("UnicodeDecodeError", "invalid utf-8 byte sequence"))
      case Some((c, n)) =>
        match Decode(b[n..])
        case Success(rest) => Success([c] + rest)
        case Failure(e) => Failure(e)
  }

  predicate IsAsciiBytes(b: seq<byte>)
  {
    forall i :: 0 <= i < |b| ==> b[i] < 0x80
  }

  /** The text whose characters have the byte values of `b`. */
  function Latin(b: seq<byte>): (s: string)
    ensures |s| == |b|
    ensures forall i :: 0 <= i < |b| ==> s[i] as int == b[i]
  {
    seq(|b|, i requires 0 <= i < |b| => b[i] as char)
  }

  /** ASCII bytes decode to the characters with the same codes. */
  lemma {:induction false} DecodeAscii(b: seq<byte>)
    requires IsAsciiBytes(b)
    ensures Decode(b) == Success(Latin(b))
    decreases |b|
  {
    if b != [] {
      assert DecodeFirst(b) == Some((b[0] as char, 1));
      DecodeAscii(b[1..]);
      assert Latin(b) == [b[0] as char] + Latin(b[1..]);
    }
  }
}
