/** `base64.b64decode(s)` as the core calls it (no altchars, validate=False):
    the argument must be an ASCII string, and the bytes are then decoded by
    CPython's non-strict `binascii.a2b_base64`, which skips characters
    outside the alphabet of section 4 of RFC 4648, stops at a complete pad
    sequence and raises `binascii.Error` on a dangling quantum.  `Encode`
    is the canonical padded encoding of that section; `RoundTrip` proves
    that decoding undoes it. */
module Base64 {
  import opened Wrappers
  import opened PyValues

  /** Value of an alphabet character (0..63), or 64 for any other one. */
  function DigitValue(c: char): (d: int)
    ensures 0 <= d <= 64
  {
    if 'A' <= c <= 'Z' then c as int - 'A' as int
    else if 'a' <= c <= 'z' then c as int - 'a' as int + 26
    else if '0' <= c <= '9' then c as int - '0' as int + 52
    else if c == '+' then 62
    else if c == '/' then 63
    else 64
  }

  /** The alphabet character of a 6-bit value. */
  function Digit(d: int): (c: char)
    requires 0 <= d < 64
    ensures DigitValue(c) == d && c != '='
  {
    if d < 26 then (('A' as int) + d) as char
    else if d < 52 then (('a' as int) + d - 26) as char
    else if d < 62 then (('0' as int) + d - 52) as char
    else if d == 62 then '+'
    else '/'
  }

  /** The decoder's registers: position in the current quantum, the bits
      carried over, the pad characters seen, and the bytes emitted. */
  datatype DecoderState = DecoderState(quadPos: int, leftchar: int, pads: nat, out: seq<byte>)

  ghost predicate Consistent(st: DecoderState)
  {
    && 0 <= st.quadPos < 4
    && 0 <= st.leftchar
    && (st.quadPos == 0 ==> st.leftchar == 0)
    && (st.quadPos == 1 ==> st.leftchar < 64)
    && (st.quadPos == 2 ==> st.leftchar < 16)
    && (st.quadPos == 3 ==> st.leftchar < 4)
  }

  function Start(out: seq<byte>): (st: DecoderState)
    ensures Consistent(st)
  {
    DecoderState(0, 0, 0, out)
  }

  /** One alphabet character `d` into the current quantum. */
  function Feed(st: DecoderState, d: int): (r: DecoderState)
    requires Consistent(st) && 0 <= d < 64
    ensures Consistent(r) && r.pads == 0
    ensures r.quadPos == (st.quadPos + 1) % 4
    ensures |r.out| == if st.quadPos == 0 then |st.out| else |st.out| + 1
  {
    match st.quadPos
    case 0 => DecoderState(1, d, 0, st.out)
    case 1 => DecoderState(2, d % 16, 0, st.out + [st.leftchar * 4 + d / 16])
    case 2 => DecoderState(3, d % 4, 0, st.out + [st.leftchar * 16 + d / 4])
    case 3 => DecoderState(0, 0, 0, st.out + [st.leftchar * 64 + d])
  }

  /** End of input without a complete pad sequence. */
  function Finish(st: DecoderState): (r: Result<seq<byte>>)
    ensures r.Success? <==> st.quadPos == 0
    ensures r.Success? ==> r.value == st.out
  {
    if st.quadPos == 0 then Success(st.out)
    else if st.quadPos == 1 then
      Failure(Raised("binascii.Error", "number of data characters cannot be 1 more than a multiple of 4"))
    else Failure(Raised("binascii.Error", "Incorrect padding"))
  }

  /** The main loop of the non-strict `a2b_base64`. */
  function A2b(s: string, st: DecoderState): (r: Result<seq<byte>>)
    requires Consistent(st)
    ensures r.Failure? ==> r.error.kind == "binascii.Error"
    ensures r.Success? && st.quadPos == 0 && st.pads == 0 && s == [] ==> r.value == st.out
    decreases |s|
  {
    if s == [] then Finish(st)
    else if s[0] == '=' then
      if st.quadPos >= 2 && st.quadPos + st.pads + 1 >= 4 then Success(st.out)
      else A2b(s[1..], if st.quadPos >= 2 then st.(pads := st.pads + 1) else st)
    else if DigitValue(s[0]) == 64 then A2b(s[1..], st)
    else A2b(s[1..], Feed(st, DigitValue(s[0])))
  }

  predicate IsAscii(s: string)
  {
    forall i :: 0 <= i < |s| ==> s[i] as int < 128
  }

  /** `base64.b64decode(s)` for a `str` argument. */
  function B64Decode(s: string): (r: Result<seq<byte>>)
    ensures !IsAscii(s) ==> r.Failure? && r.error.kind == "ValueError"
    ensures r.Success? <==> IsAscii(s) && A2b(s, Start([])).Success?
    ensures r.Success? ==> |r.value| <= |s|
  {
    if !IsAscii(s) then Failure(Raised("ValueError", "string argument should contain only ASCII characters"))
    else A2bExtends(s, Start([])); A2b(s, Start([]))
  }

  /** The decoder only appends, and at most one byte per character read. */
  lemma {:induction false} A2bExtends(s: string, st: DecoderState)
    requires Consistent(st)
    ensures A2b(s, st).Success? ==> st.out <= A2b(s, st).value && |A2b(s, st).value| <= |st.out| + |s|
    decreases |s|
  {
    if s == [] {
    } else if s[0] == '=' {
      if !(st.quadPos >= 2 && st.quadPos + st.pads + 1 >= 4) {
        A2bExtends(s[1..], if st.quadPos >= 2 then st.(pads := st.pads + 1) else st);
      }
    } else if DigitValue(s[0]) == 64 {
      A2bExtends(s[1..], st);
    } else {
      A2bExtends(s[1..], Feed(st, DigitValue(s[0])));
    }
  }

  /** Canonical encoding, section 4 of RFC 4648, with '=' padding. */
  function Encode(b: seq<byte>): (s: string)
    ensures |s| == 4 * ((|b| + 2) / 3)
    ensures forall i :: 0 <= i < |s| ==> s[i] == '=' || DigitValue(s[i]) < 64
    decreases |b|
  {
    if |b| == 0 then ""
    else if |b| == 1 then
      [Digit(b[0] / 4), Digit((b[0] % 4) * 16), '=', '=']
    else if |b| == 2 then
      [Digit(b[0] / 4), Digit((b[0] % 4) * 16 + b[1] / 16), Digit((b[1] % 16) * 4), '=']
    else
      var rest := Encode(b[3..]);
      var group := [Digit(b[0] / 4), Digit((b[0] % 4) * 16 + b[1] / 16), Digit((b[1] % 16) * 4 + b[2] / 64), Digit(b[2] % 64)];
      assert forall i :: 0 <= i < |rest| ==> (group + rest)[i + 4] == rest[i];
      group + rest
  }

  lemma EncodeIsAscii(b: seq<byte>)
    ensures IsAscii(Encode(b))
  {
    var s := Encode(b);
    forall i | 0 <= i < |s| ensures s[i] as int < 128 {
      assert s[i] == '=' || DigitValue(s[i]) < 64;
    }
  }

  /** An alphabet character feeds the decoder. */
  lemma A2bDigit(s: string, st: DecoderState)
    requires Consistent(st) && s != [] && s[0] != '=' && DigitValue(s[0]) < 64
    ensures A2b(s, st) == A2b(s[1..], Feed(st, DigitValue(s[0])))
  {
  }

  lemma HighLow(x: byte, y: byte)
    ensures (x / 4) * 4 + ((x % 4) * 16 + y / 16) / 16 == x
  {
  }

  lemma MidLow(y: byte, z: byte)
    ensures (y / 16) * 16 + ((y % 16) * 4 + z / 64) / 4 == y
  {
  }

  /** The first two characters of a group give back its first byte. */
  lemma {:induction false} DecodeFirstPair(x: byte, y: byte, rest: string, out: seq<byte>)
    ensures A2b([Digit(x / 4), Digit((x % 4) * 16 + y / 16)] + rest, Start(out))
         == A2b(rest, DecoderState(2, y / 16, 0, out + [x]))
  {
    var s := [Digit(x / 4), Digit((x % 4) * 16 + y / 16)] + rest;
    var st1 := Feed(Start(out), x / 4);
    HighLow(x, y);
    assert Feed(st1, (x % 4) * 16 + y / 16) == DecoderState(2, y / 16, 0, out + [x]);
    A2bDigit(s, Start(out));
    assert s[1..][1..] == rest;
    A2bDigit(s[1..], st1);
  }

  /** The last two characters of a group give back its other two bytes. */
  lemma {:induction false} DecodeSecondPair(y: byte, z: byte, rest: string, out: seq<byte>)
    ensures A2b([Digit((y % 16) * 4 + z / 64), Digit(z % 64)] + rest, DecoderState(2, y / 16, 0, out))
         == A2b(rest, Start(out + [y, z]))
  {
    var s := [Digit((y % 16) * 4 + z / 64), Digit(z % 64)] + rest;
    var st2 := DecoderState(2, y / 16, 0, out);
    var st3 := Feed(st2, (y % 16) * 4 + z / 64);
    MidLow(y, z);
    assert st3 == DecoderState(3, z / 64, 0, out + [y]);
    assert Feed(st3, z % 64) == Start(out + [y, z]);
    A2bDigit(s, st2);
    assert s[1..][1..] == rest;
    A2bDigit(s[1..], st3);
  }

  /** Three whole bytes come back from their four characters. */
  lemma {:induction false} DecodeGroup(x: byte, y: byte, z: byte, rest: string, out: seq<byte>)
    ensures A2b([Digit(x / 4), Digit((x % 4) * 16 + y / 16), Digit((y % 16) * 4 + z / 64), Digit(z % 64)] + rest, Start(out))
         == A2b(rest, Start(out + [x, y, z]))
  {
    var tail := [Digit((y % 16) * 4 + z / 64), Digit(z % 64)] + rest;
    assert [Digit(x / 4), Digit((x % 4) * 16 + y / 16), Digit((y % 16) * 4 + z / 64), Digit(z % 64)] + rest
        == [Digit(x / 4), Digit((x % 4) * 16 + y / 16)] + tail;
    DecodeFirstPair(x, y, tail, out);
    DecodeSecondPair(y, z, rest, out + [x]);
    assert out + [x] + [y, z] == out + [x, y, z];
  }

  lemma {:induction false} DecodeOne(x: byte, out: seq<byte>)
    ensures A2b(Encode([x]), Start(out)) == Success(out + [x])
  {
    var s := Encode([x]);
    assert s == [Digit(x / 4), Digit((x % 4) * 16), '=', '='];
    var st1 := Feed(Start(out), x / 4);
    var st2 := Feed(st1, (x % 4) * 16);
    HighLow(x, 0);
    assert st2.out == out + [x];
    A2bDigit(s, Start(out));
    A2bDigit(s[1..], st1);
    assert s[1..][1..] == ['=', '='] && s[1..][1..][1..] == ['='];
  }

  lemma {:induction false} DecodeTwo(x: byte, y: byte, out: seq<byte>)
    ensures A2b(Encode([x, y]), Start(out)) == Success(out + [x, y])
  {
    var s := Encode([x, y]);
    assert s == [Digit(x / 4), Digit((x % 4) * 16 + y / 16), Digit((y % 16) * 4), '='];
    var st1 := Feed(Start(out), x / 4);
    var st2 := Feed(st1, (x % 4) * 16 + y / 16);
    var st3 := Feed(st2, (y % 16) * 4);
    HighLow(x, y);
    assert st2.out == out + [x];
    MidLow(y, 0);
    assert st3.out == out + [x, y];
    A2bDigit(s, Start(out));
    A2bDigit(s[1..], st1);
    assert s[1..][1..] == [Digit((y % 16) * 4), '='];
    A2bDigit(s[1..][1..], st2);
    assert s[1..][1..][1..] == ['='];
  }

  lemma {:induction false} DecodeTail(b: seq<byte>, out: seq<byte>)
    requires |b| == 1 || |b| == 2
    ensures A2b(Encode(b), Start(out)) == Success(out + b)
  {
    if |b| == 1 {
      assert b == [b[0]];
      DecodeOne(b[0], out);
    } else {
      assert b == [b[0], b[1]];
      DecodeTwo(b[0], b[1], out);
    }
  }

  lemma {:induction false} DecodeEncoded(b: seq<byte>, out: seq<byte>)
    ensures A2b(Encode(b), Start(out)) == Success(out + b)
    decreases |b|
  {
    if |b| == 0 {
      assert out + b == out;
    } else if |b| <= 2 {
      DecodeTail(b, out);
    } else {
      DecodeGroup(b[0], b[1], b[2], Encode(b[3..]), out);
      DecodeEncoded(b[3..], out + [b[0], b[1], b[2]]);
      assert out + [b[0], b[1], b[2]] + b[3..] == out + b;
    }
  }

  /** Decoding undoes the canonical encoding. */
  lemma RoundTrip(b: seq<byte>)
    ensures B64Decode(Encode(b)) == Success(b)
  {
    EncodeIsAscii(b);
    DecodeEncoded(b, []);
    assert [] + b == b;
  }
}
