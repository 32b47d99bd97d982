/** `chmod(path, mode)`: validates an octal mode of one to three digits,
    left-pads it to three, and adds up, per digit position (user, group,
    other) and per bit (4 read, 2 write, 1 execute), the matching `stat`
    constant before handing the total to one `os.chmod` call. */
module Chmod {
  import opened Wrappers

  /** `BNS`: the read, write and execute bits of an octal digit. */
  const Bits: seq<int> := [4, 2, 1]

  /** `MDS[bit][position]`: S_IRUSR S_IRGRP S_IROTH, S_IWUSR ..., S_IXUSR ... */
  const StatBits: seq<seq<int>> := [[0x100, 0x20, 0x4], [0x80, 0x10, 0x2], [0x40, 0x8, 0x1]]

  /** The mode argument: an int or a string. */
  datatype Mode = ModeInt(i: int) | ModeStr(s: string)

  /** The single `os.chmod(path, bits)` call the function ends with. */
  datatype ChmodCall = ChmodCall(path: string, bits: int)

  function DecimalDigit(d: int): (c: char)
    requires 0 <= d < 10
    ensures '0' <= c <= '9' && c as int - '0' as int == d
  {
    (d + '0' as int) as char
  }

  function NatToDecimal(n: nat): (s: string)
    ensures |s| >= 1
    ensures forall j :: 0 <= j < |s| ==> '0' <= s[j] <= '9'
  {
    if n < 10 then [DecimalDigit(n)] else NatToDecimal(n / 10) + [DecimalDigit(n % 10)]
  }

  /** `str(i)` */
  function IntToStr(i: int): string
  {
    if i < 0 then "-" + NatToDecimal(-i) else NatToDecimal(i)
  }

  /** The mode as a string: `str(mode)` when it is an int. */
  function ModeText(m: Mode): string
  {
    match m
    case ModeInt(i) => IntToStr(i)
    case ModeStr(s) => s
  }

  predicate IsOctalDigit(c: char)
  {
    '0' <= c <= '7'
  }

  predicate AllOctal(s: string)
  {
    forall j :: 0 <= j < |s| ==> IsOctalDigit(s[j])
  }

  /** One to three octal digits. */
  predicate IsValidMode(s: string)
  {
    1 <= |s| <= 3 && AllOctal(s)
  }

  /** `re.match("^[0-7]{1,3}$", s)`: the `$` also matches just before a
      final newline. */
  predicate MatchesModePattern(s: string)
    ensures MatchesModePattern(s) ==> 1 <= |s| <= 4 && forall j :: 0 <= j < |s| - 1 ==> IsOctalDigit(s[j])
    ensures MatchesModePattern(s) && IsOctalDigit(s[|s| - 1]) ==> IsValidMode(s)
  {
    IsValidMode(s) || (|s| >= 2 && s[|s| - 1] == '\n' && IsValidMode(s[..|s| - 1]))
  }

  /** `"{0:0>3}".format(s)`: left-padded with '0' to at least three characters. */
  function Pad3(s: string): (p: string)
    ensures |p| == if |s| >= 3 then |s| else 3
    ensures p[|p| - |s|..] == s
    ensures forall j :: 0 <= j < |p| - |s| ==> p[j] == '0'
  {
    if |s| >= 3 then s else seq(3 - |s|, _ => '0') + s
  }

  function DigitOf(c: char): int
  {
    c as int - '0' as int
  }

  /** The numeric value of a string of octal digits. */
  function OctalValue(s: string): (v: nat)
    requires AllOctal(s)
  {
    if s == [] then 0 else 8 * OctalValue(s[..|s| - 1]) + DigitOf(s[|s| - 1])
  }

  /** Bitwise `a & b` on naturals. */
  function BitAnd(a: nat, b: nat): nat
  {
    if a == 0 || b == 0 then 0
    else 2 * BitAnd(a / 2, b / 2) + (if a % 2 == 1 && b % 2 == 1 then 1 else 0)
  }

  /** `x` at the place value of digit position 0, 1, 2 (user, group, other). */
  function Scale(x: int, j: int): int
  {
    if j == 0 then 64 * x else if j == 1 then 8 * x else x
  }

  /** Value of the first `k` digits as the loop has added them up. */
  function Weighted(m: string, k: nat): int
    requires k <= |m|
  {
    if k == 0 then 0 else Weighted(m, k - 1) + Scale(DigitOf(m[k - 1]), k - 1)
  }

  lemma StatBitIsScaledBit(b: nat, j: nat)
    requires b < 3 && j < 3
    ensures StatBits[b][j] == Scale(Bits[b], j)
  {
  }

  /** Contribution of the first `k` of the read/write/execute bits of `d`. */
  function BitsOf(d: nat, k: nat): int
    requires k <= 3
  {
    if k == 0 then 0 else BitsOf(d, k - 1) + (if BitAnd(d, Bits[k - 1]) > 0 then Bits[k - 1] else 0)
  }

  /** `d & 4`, `d & 2`, `d & 1` of an octal digit add back up to `d`. */
  lemma DigitIsItsBits(d: nat)
    requires d < 8
    ensures BitsOf(d, 3) == d
  {
    assert Bits[0] == 4 && Bits[1] == 2 && Bits[2] == 1;
    assert BitsOf(d, 1) == (if BitAnd(d, 4) > 0 then 4 else 0);
    assert BitsOf(d, 2) == BitsOf(d, 1) + (if BitAnd(d, 2) > 0 then 2 else 0);
    assert BitsOf(d, 3) == BitsOf(d, 2) + (if BitAnd(d, 1) > 0 then 1 else 0);
    if d == 0 {
    } else if d == 1 {
    } else if d == 2 {
    } else if d == 3 {
    } else if d == 4 {
    } else if d == 5 {
    } else if d == 6 {
    } else {
      assert d == 7;
    }
  }

  lemma WeightedIsOctal(m: string)
    requires |m| == 3 && AllOctal(m)
    ensures Weighted(m, 3) == OctalValue(m)
    ensures OctalValue(m) == 64 * DigitOf(m[0]) + 8 * DigitOf(m[1]) + DigitOf(m[2])
  {
    var a, b, c := DigitOf(m[0]), DigitOf(m[1]), DigitOf(m[2]);
    assert Weighted(m, 1) == 64 * a;
    assert Weighted(m, 2) == 64 * a + 8 * b;
    assert Weighted(m, 3) == 64 * a + 8 * b + c;
    assert m[..2][..1] == m[..1] && m[..2][1] == m[1];
    assert m[..1][..0] == [];
    assert OctalValue(m[..1]) == a;
    assert OctalValue(m[..2]) == 8 * a + b;
  }

  /** What padding leaves: three octal digits for a valid mode, octal
      digits and a final newline for one admitted through the `$`. */
  ghost predicate PaddedShape(m: string, valid: bool)
  {
    if valid then |m| == 3 && AllOctal(m)
    else 2 <= |m| <= 4 && m[|m| - 1] == '\n' && forall j :: 0 <= j < |m| - 1 ==> IsOctalDigit(m[j])
  }

  /** The body of `chmod`: validation, padding, then the bit loops. */
  method Chmod(path: string, mode: Mode) returns (r: Result<ChmodCall>)
    ensures r.Success? <==> IsValidMode(ModeText(mode))
    ensures r.Success? ==> r.value == ChmodCall(path, OctalValue(Pad3(ModeText(mode))))
    ensures !MatchesModePattern(ModeText(mode)) ==>
              r == Failure(Raised("Exception", "mode does not conform to ^[0-7]{1,3}$ pattern"))
    ensures MatchesModePattern(ModeText(mode)) && !IsValidMode(ModeText(mode)) ==>
              r.Failure? && r.error.kind == "ValueError"
  {
    var m := ModeText(mode);
    if !MatchesModePattern(m) {
      return Failure(Raised("Exception", "mode does not conform to ^[0-7]{1,3}$ pattern"));
    }
    ghost var valid := IsValidMode(m);
    if !valid {
      PaddedNewline(m);
    }
    m := Pad3(m);
    var modeNum := ModeNumber(m, valid);
    if modeNum.Failure? {
      return Failure(modeNum.error);
    }
    return Success(ChmodCall(path, modeNum.value));
  }

  /** The nested loops over the padded mode: `int(m) & bn` selects the
      `MDS[bnidx][midx]` constant to add. */
  method ModeNumber(m: string, ghost valid: bool) returns (r: Result<int>)
    requires PaddedShape(m, valid)
    ensures r.Success? <==> valid
    ensures r.Success? ==> AllOctal(m) && r.value == OctalValue(m)
    ensures r.Failure? ==> r.error.kind == "ValueError"
  {
    var modeNum := 0;
    for midx := 0 to |m|
      invariant !valid ==> midx < |m|
      invariant modeNum == Weighted(m, midx)
    {
      if !('0' <= m[midx] <= '9') {
        return Failure(Raised("ValueError", "invalid literal for int() with base 10"));
      }
      var digit: nat := m[midx] as int - '0' as int;
      assert digit < 8 && midx < 3 by {
        if !valid {
          assert midx != |m| - 1;
        }
      }
      for bnidx := 0 to 3
        invariant modeNum == Weighted(m, midx) + Scale(BitsOf(digit, bnidx), midx)
      {
        if BitAnd(digit, Bits[bnidx]) > 0 {
          StatBitIsScaledBit(bnidx, midx);
          modeNum := modeNum + StatBits[bnidx][midx];
        }
      }
      DigitIsItsBits(digit);
    }
    assert valid;
    WeightedIsOctal(m);
    return Success(modeNum);
  }

  /** A mode admitted only through the newline before `$` keeps that
      newline as its last character after padding. */
  lemma PaddedNewline(s: string)
    requires MatchesModePattern(s) && !IsValidMode(s)
    ensures PaddedShape(Pad3(s), false)
  {
    var m := Pad3(s);
    var t := s[..|s| - 1];
    var k := |m| - |s|;
    assert m[k..] == s;
    forall j | 0 <= j < |m| - 1 ensures IsOctalDigit(m[j]) {
      if j >= k {
        assert m[j] == m[k..][j - k] == s[j - k] == t[j - k];
      }
    }
  }

  /** Leading zeros do not change an octal value. */
  lemma {:induction false} LeadingZero(s: string)
    requires AllOctal(s)
    ensures AllOctal("0" + s) && OctalValue("0" + s) == OctalValue(s)
    decreases |s|
  {
    if s != [] {
      var z := "0" + s;
      assert z[..|z| - 1] == "0" + s[..|s| - 1];
      LeadingZero(s[..|s| - 1]);
    }
  }

  lemma {:induction false} LeadingZeros(n: nat, s: string)
    requires AllOctal(s)
    ensures AllOctal(seq(n, _ => '0') + s) && OctalValue(seq(n, _ => '0') + s) == OctalValue(s)
  {
    if n == 0 {
      assert seq(n, _ => '0') + s == s;
    } else {
      var z := seq(n - 1, _ => '0') + s;
      assert seq(n, _ => '0') + s == "0" + z;
      LeadingZeros(n - 1, s);
      LeadingZero(z);
    }
  }

  /** Padding keeps the value: "7" gives 0o007, "64" gives 0o064. */
  lemma PaddedValue(s: string)
    requires AllOctal(s)
    ensures AllOctal(Pad3(s)) && OctalValue(Pad3(s)) == OctalValue(s)
  {
    if |s| < 3 {
      LeadingZeros(3 - |s|, s);
    }
  }

  /** A valid mode yields at most 0o777 (no setuid, setgid or sticky bit),
      and its three decimal classes are the user, group and other digits. */
  lemma ModeClasses(s: string)
    requires IsValidMode(s)
    ensures var p := Pad3(s);
            && |p| == 3 && AllOctal(p)
            && OctalValue(p) == 64 * DigitOf(p[0]) + 8 * DigitOf(p[1]) + DigitOf(p[2])
            && OctalValue(p) < 512
  {
    var p := Pad3(s);
    PaddedValue(s);
    WeightedIsOctal(p);
  }

  /** The document default "0644" is four characters long and is refused. */
  lemma FourDigitModeRejected()
    ensures !MatchesModePattern("0644")
  {
  }

  lemma ThreeDigits(n: nat, a: nat, b: nat, c: nat)
    requires 1 <= a < 10 && b < 10 && c < 10 && n == 100 * a + 10 * b + c
    ensures NatToDecimal(n) == [DecimalDigit(a), DecimalDigit(b), DecimalDigit(c)]
  {
    assert n / 10 == 10 * a + b && n % 10 == c;
    assert (10 * a + b) / 10 == a && (10 * a + b) % 10 == b;
    assert NatToDecimal(10 * a + b) == NatToDecimal(a) + [DecimalDigit(b)];
    assert NatToDecimal(n) == NatToDecimal(10 * a + b) + [DecimalDigit(c)];
  }

  /** An int mode is read through its decimal digits: 644 gives 0o644,
      while 420 (which is 0o644) gives 0o420. */
  lemma IntModeReadThroughDecimalDigits()
    ensures ModeText(ModeInt(644)) == "644" && OctalValue("644") == 0x1A4
    ensures ModeText(ModeInt(420)) == "420" && OctalValue("420") == 0x110
  {
    ThreeDigits(644, 6, 4, 4);
    ThreeDigits(420, 4, 2, 0);
    assert [DecimalDigit(6), DecimalDigit(4), DecimalDigit(4)] == "644";
    assert [DecimalDigit(4), DecimalDigit(2), DecimalDigit(0)] == "420";
    WeightedIsOctal("644");
    WeightedIsOctal("420");
  }
}
