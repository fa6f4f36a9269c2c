/**
 * Hexadecimal digits as the app reads and writes them: `parseInt(s, 16)`,
 * `n.toString(16)` and `padStart(2, '0')`.
 */
module Hex {
  import opened Wrappers
  import Js

  predicate IsHexDigit(c: char) {
    '0' <= c <= '9' || 'a' <= c <= 'f' || 'A' <= c <= 'F'
  }

  predicate IsLowerHexDigit(c: char) {
    '0' <= c <= '9' || 'a' <= c <= 'f'
  }

  predicate AllHex(s: string) {
    forall i :: 0 <= i < |s| ==> IsHexDigit(s[i])
  }

  predicate AllLowerHex(s: string) {
    forall i :: 0 <= i < |s| ==> IsLowerHexDigit(s[i])
  }

  function DigitValue(c: char): (v: nat)
    requires IsHexDigit(c)
    ensures v < 16
  {
    if '0' <= c <= '9' then c as int - '0' as int
    else if 'a' <= c <= 'f' then c as int - 'a' as int + 10
    else c as int - 'A' as int + 10
  }

  /** The lowercase digit `toString(16)` writes for a value below 16 */
  function Digit(v: nat): (c: char)
    requires v < 16
    ensures IsLowerHexDigit(c) && DigitValue(c) == v
  {
    if v < 10 then '0' + v as char else 'a' + (v - 10) as char
  }

  lemma DigitOfValue(c: char)
    requires IsHexDigit(c)
    ensures Digit(DigitValue(c)) == Js.LowerChar(c)
  {
  }

  /** Number of leading hex digits of `s` */
  function HexRun(s: string): (n: nat)
    ensures n <= |s|
    ensures AllHex(s[..n])
    ensures n < |s| ==> !IsHexDigit(s[n])
  {
    if s == [] || !IsHexDigit(s[0]) then 0
    else
      var n := 1 + HexRun(s[1..]);
      assert s[..n] == [s[0]] + s[1..][..n - 1];
      n
  }

  /** The value of a string of hex digits, most significant first */
  function ValueOf(s: string): nat
    requires AllHex(s)
  {
    if s == [] then 0 else ValueOf(s[..|s| - 1]) * 16 + DigitValue(s[|s| - 1])
  }

  /**
   * `parseInt(s, 16)`: the value of the leading hex digits after an optional
   * `0x` prefix, or None (NaN) when there are none.
   */
  function ParseInt16(s: string): (r: Option<nat>)
    ensures r.None? <==> HexRun(StripPrefix(s)) == 0
  {
    var body := StripPrefix(s);
    var n := HexRun(body);
    if n == 0 then None else Some(ValueOf(body[..n]))
  }

  function StripPrefix(s: string): string {
    if |s| >= 2 && s[0] == '0' && (s[1] == 'x' || s[1] == 'X') then s[2..] else s
  }

  /** `n.toString(16)` for a non-negative integer */
  function ToString16(n: nat): (s: string)
    ensures 1 <= |s| && AllLowerHex(s) && AllHex(s)
    ensures n < 16 ==> |s| == 1
    ensures 16 <= n < 256 ==> |s| == 2
  {
    if n < 16 then [Digit(n)] else ToString16(n / 16) + [Digit(n % 16)]
  }

  /** `(n).toString(16)` for any integer: a minus sign before the digits */
  function IntToString16(n: int): string {
    if n < 0 then "-" + ToString16(-n) else ToString16(n)
  }

  /** `s.padStart(2, '0')` */
  function PadStart2(s: string): (r: string)
    ensures |s| >= 2 ==> r == s
    ensures |s| < 2 ==> |r| == 2 && r[2 - |s|..] == s
    ensures forall i :: 0 <= i < |r| - |s| ==> r[i] == '0'
  {
    if |s| >= 2 then s else if |s| == 1 then ['0'] + s else "00"
  }

  /** Two lowercase digits of a byte, as `toString(16).padStart(2, '0')` gives them */
  function Byte2(n: nat): (s: string)
    requires n < 256
    ensures |s| == 2 && AllLowerHex(s) && AllHex(s)
  {
    PadStart2(ToString16(n))
  }

  lemma {:induction false} ValueOfToString16(n: nat)
    ensures ValueOf(ToString16(n)) == n
  {
    if n >= 16 {
      var s := ToString16(n);
      var p := ToString16(n / 16);
      assert s[..|s| - 1] == p;
      ValueOfToString16(n / 16);
    }
  }

  /** Formatting a byte and parsing it back gives the byte */
  lemma {:induction false} Byte2RoundTrip(n: nat)
    requires n < 256
    ensures ParseInt16(Byte2(n)) == Some(n)
    ensures ValueOf(Byte2(n)) == n
  {
    var s := Byte2(n);
    ValueOfToString16(n);
    if n < 16 {
      assert s == ['0', Digit(n)];
      assert s[..1] == ['0'];
    } else {
      assert s == ToString16(n);
    }
    assert s[..2] == s;
    assert HexRun(s) == 2 by {
      assert s[1..][1..] == [];
    }
    assert StripPrefix(s) == s by {
      assert s[0] == '0' ==> s[1] != 'x' && s[1] != 'X';
    }
    assert ParseInt16(s) == Some(ValueOf(s[..2]));
  }

  /** Two hex digits parse to a byte, and formatting it gives their lowercase form */
  lemma {:induction false} ParseThenFormat(s: string)
    requires |s| == 2 && AllHex(s)
    ensures ValueOf(s) < 256
    ensures ValueOf(s) == DigitValue(s[0]) * 16 + DigitValue(s[1])
    ensures Byte2(ValueOf(s)) == Js.ToLower(s)
  {
    var hi, lo := DigitValue(s[0]), DigitValue(s[1]);
    assert s[..1] == [s[0]];
    assert s[..1][..0] == [];
    var n := ValueOf(s);
    assert ValueOf(s[..1]) == hi;
    assert n == hi * 16 + lo;
    DigitOfValue(s[0]);
    DigitOfValue(s[1]);
    if hi == 0 {
      assert ToString16(n) == [Digit(lo)];
    } else {
      assert n / 16 == hi && n % 16 == lo;
      assert ToString16(n) == [Digit(hi), Digit(lo)];
    }
  }

  /** `parseInt` of two hex digits reads both */
  lemma ParseTwoDigits(s: string)
    requires |s| == 2 && AllHex(s)
    ensures ParseInt16(s) == Some(ValueOf(s))
  {
    assert StripPrefix(s) == s;
    assert HexRun(s) == 2 by {
      assert s[1..][1..] == [];
    }
    assert s[..2] == s;
  }

  /** `parseInt` of at most two characters is at most a byte */
  lemma ShortParse(s: string)
    requires |s| <= 2
    ensures ParseInt16(s).Some? ==> ParseInt16(s).value < 256
  {
    var body := StripPrefix(s);
    var n := HexRun(body);
    if n == 1 {
      assert body[..1][..0] == [];
      assert ValueOf(body[..1]) == DigitValue(body[0]);
    } else if n == 2 {
      var d := body[..2];
      var head := d[..1];
      assert head[..0] == [];
      assert ValueOf(head) == DigitValue(d[0]);
      assert ValueOf(d) == ValueOf(head) * 16 + DigitValue(d[1]);
    }
  }
}
