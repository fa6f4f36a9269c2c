/**
 * The JavaScript number and string built-ins the app relies on, stated over
 * exact reals and sequences of characters.
 */
module Js {
  /** `Math.min` */
  function Min(a: real, b: real): real {
    if a <= b then a else b
  }

  /** `Math.max` */
  function Max(a: real, b: real): real {
    if a >= b then a else b
  }

  /** `Math.PI`, the double nearest to pi */
  const Pi: real := 3.141592653589793

  /** `Math.abs` */
  function Abs(x: real): (r: real)
    ensures 0.0 <= r && (r == x || r == -x)
  {
    if x < 0.0 then -x else x
  }

  /** `Math.max(lo, Math.min(hi, x))` */
  function Clamp(x: real, lo: real, hi: real): (r: real)
    ensures lo <= hi ==> lo <= r <= hi
    ensures lo <= x <= hi ==> r == x
    ensures x <= lo ==> r == lo
    ensures hi <= x && lo <= hi ==> r == hi
  {
    Max(lo, Min(hi, x))
  }

  /** `Math.round`: the nearest integer, halves rounded toward +infinity */
  function Round(x: real): (n: int)
    ensures x - 0.5 < n as real <= x + 0.5
  {
    (x + 0.5).Floor
  }

  /** The integer part of `x`, the fraction dropped toward zero */
  function Trunc(x: real): (n: int)
    ensures 0.0 <= x ==> 0 <= n && n as real <= x < n as real + 1.0
    ensures x < 0.0 ==> n <= 0 && n as real - 1.0 < x <= n as real
  {
    if x >= 0.0 then x.Floor else -((-x).Floor)
  }

  /**
   * The `%` operator on numbers with a positive divisor: the remainder takes
   * the sign of the dividend, unlike Dafny's Euclidean remainder.
   */
  function Rem(a: real, b: real): (r: real)
    requires b > 0.0
    ensures 0.0 <= a ==> 0.0 <= r < b
    ensures a < 0.0 ==> -b < r <= 0.0
    ensures 0.0 <= a < b ==> r == a
    ensures -b < a <= 0.0 ==> r == a
  {
    var q := Trunc(a / b);
    RemBounds(a, b, q);
    a - b * q as real
  }

  /** `%` on integral numbers with a positive divisor: truncating, so the sign follows the dividend */
  function IRem(a: int, b: int): (r: int)
    requires b > 0
    ensures 0 <= a ==> 0 <= r < b && r == a % b
    ensures a < 0 ==> -b < r <= 0 && (a - r) % b == 0
    ensures -b < a < b ==> r == a
  {
    RemFacts(a, b);
    if a >= 0 then a % b else -((-a) % b)
  }

  /**
   * A remainder below the divisor is the number itself, and adding back the
   * remainder of the negation leaves a multiple of the divisor
   */
  lemma RemFacts(a: int, b: int)
    requires b > 0
    ensures 0 <= a < b ==> a % b == a
    ensures 0 < -a < b ==> (-a) % b == -a
    ensures (a + (-a) % b) % b == 0
  {
    if 0 <= a < b {
      ModUnique(a, b, 0, a);
    }
    if 0 < -a < b {
      ModUnique(-a, b, 0, -a);
    }
    var q := (-a) / b;
    assert -a == q * b + (-a) % b;
    assert a + (-a) % b == (-q) * b;
    ModUnique(a + (-a) % b, b, -q, 0);
  }

  /** Euclidean division is determined by a quotient and an in-range remainder */
  lemma ModUnique(a: int, b: int, q: int, r: int)
    requires b > 0 && 0 <= r < b && a == q * b + r
    ensures a / b == q && a % b == r
  {
    var q0, r0 := a / b, a % b;
    assert a == q0 * b + r0 && 0 <= r0 < b;
    var d := q - q0;
    assert d * b == r0 - r by {
      assert q * b - q0 * b == (q - q0) * b;
    }
  }

  lemma RemBounds(a: real, b: real, q: int)
    requires b > 0.0 && q == Trunc(a / b)
    ensures 0.0 <= a ==> 0.0 <= a - b * q as real < b
    ensures a < 0.0 ==> -b < a - b * q as real <= 0.0
    ensures 0.0 <= a < b ==> q == 0
    ensures -b < a <= 0.0 ==> q == 0
  {
    var x := a / b;
    assert a == b * x;
    Scale(b, x, a);
    Scale(b, -x, -a);
    var d := x - q as real;
    var m := a - b * q as real;
    assert m == b * d;
    if 0.0 <= a {
      Scale(b, d, m);
    } else {
      Scale(b, -d, -m);
    }
  }

  /** The sign of a product with a positive factor is the sign of the other factor */
  lemma MulSign(a: real, b: real)
    requires b > 0.0
    ensures a > 0.0 ==> a * b > 0.0
    ensures a < 0.0 ==> a * b < 0.0
    ensures a >= 0.0 ==> a * b >= 0.0
  {
  }

  /** `m = b * d` with `b > 0` keeps the sign of `d` and its comparison with 1 */
  lemma Scale(b: real, d: real, m: real)
    requires b > 0.0 && m == b * d
    ensures d >= 0.0 <==> m >= 0.0
    ensures d < 1.0 <==> m < b
  {
    if d < 1.0 {
      assert b * (1.0 - d) > 0.0;
    } else {
      assert b * (d - 1.0) >= 0.0;
    }
  }

  /** `s.length`: UTF-16 code units, two for each character outside the Basic Multilingual Plane */
  function Utf16Length(s: string): (n: nat)
    ensures |s| <= n <= 2 * |s|
  {
    if s == [] then 0 else Utf16Length(s[..|s| - 1]) + (if s[|s| - 1] as int >= 0x10000 then 2 else 1)
  }

  /** Text within the Basic Multilingual Plane has one code unit per character */
  lemma {:induction false} Utf16LengthBmp(s: string)
    requires forall i :: 0 <= i < |s| ==> s[i] as int < 0x10000
    ensures Utf16Length(s) == |s|
  {
    if s != [] {
      Utf16LengthBmp(s[..|s| - 1]);
    }
  }

  /** Text with a character outside the Basic Multilingual Plane is longer in code units than in characters */
  lemma {:induction false} Utf16LengthAstral(s: string, k: nat)
    requires k < |s| && s[k] as int >= 0x10000
    ensures Utf16Length(s) > |s|
  {
    if k < |s| - 1 {
      Utf16LengthAstral(s[..|s| - 1], k);
    }
  }

  /** ASCII lower-casing of one character */
  function LowerChar(c: char): char {
    if 'A' <= c <= 'Z' then (c as int + 32) as char else c
  }

  /** `s.toLowerCase()`, for the ASCII letters */
  function ToLower(s: string): (r: string)
    ensures |r| == |s|
    ensures forall i :: 0 <= i < |s| ==> r[i] == LowerChar(s[i])
  {
    if s == [] then [] else [LowerChar(s[0])] + ToLower(s[1..])
  }

  /** `s.slice(a, b)` for indices `0 <= a <= b`: both are cut down to the length */
  function Slice(s: string, a: nat, b: nat): (r: string)
    requires a <= b
    ensures b <= |s| ==> r == s[a..b]
    ensures |r| <= b - a
  {
    var hi := if b < |s| then b else |s|;
    var lo := if a < hi then a else hi;
    s[lo..hi]
  }

  lemma ToLowerAppend(a: string, b: string)
    ensures ToLower(a + b) == ToLower(a) + ToLower(b)
  {
    var l, r := ToLower(a + b), ToLower(a) + ToLower(b);
    assert forall i :: 0 <= i < |l| ==> l[i] == r[i];
  }

  /** `s.startsWith(p)` */
  predicate StartsWith(s: string, p: string) {
    |p| <= |s| && s[..|p|] == p
  }

  /** `s.includes(w)` */
  predicate Contains(s: string, w: string)
    decreases |s|
  {
    StartsWith(s, w) || (|s| > 0 && Contains(s[1..], w))
  }

  /** The white space and line terminators `String.prototype.trim` removes */
  predicate IsSpace(c: char) {
    c == '\t' || c == '\n' || c == '\U{B}' || c == '\U{C}' || c == '\r' || c == ' '
    || c == '\U{A0}' || c == '\U{1680}' || '\U{2000}' <= c <= '\U{200A}'
    || c == '\U{2028}' || c == '\U{2029}' || c == '\U{202F}' || c == '\U{205F}' || c == '\U{3000}' || c == '\U{FEFF}'
  }

  /** Every character is white space */
  predicate IsBlank(s: string) {
    forall i :: 0 <= i < |s| ==> IsSpace(s[i])
  }

  function TrimStart(s: string): string {
    if s != [] && IsSpace(s[0]) then TrimStart(s[1..]) else s
  }

  function TrimEnd(s: string): string {
    if s != [] && IsSpace(s[|s| - 1]) then TrimEnd(s[..|s| - 1]) else s
  }

  /** `s.trim()` */
  function Trim(s: string): string {
    TrimEnd(TrimStart(s))
  }

  /** `s.trim()` is empty, so falsy, exactly when every character is white space */
  lemma TrimEmptyIffBlank(s: string)
    ensures Trim(s) == "" <==> IsBlank(s)
  {
    TrimStartFacts(s);
    var t := TrimStart(s);
    TrimEndFacts(t);
    if t != [] {
      assert !IsBlank(t) by {
        assert !IsSpace(t[0]);
      }
    }
  }

  lemma {:induction false} TrimStartFacts(s: string)
    ensures TrimStart(s) == [] <==> IsBlank(s)
    ensures TrimStart(s) != [] ==> !IsSpace(TrimStart(s)[0])
  {
    if s != [] && IsSpace(s[0]) {
      TrimStartFacts(s[1..]);
      assert IsBlank(s) <==> IsBlank(s[1..]) by {
        assert forall i :: 0 < i < |s| ==> s[i] == s[1..][i - 1];
      }
    }
  }

  lemma {:induction false} TrimEndFacts(s: string)
    ensures TrimEnd(s) == [] <==> IsBlank(s)
  {
    if s != [] && IsSpace(s[|s| - 1]) {
      var init := s[..|s| - 1];
      TrimEndFacts(init);
      assert IsBlank(s) <==> IsBlank(init) by {
        assert forall i :: 0 <= i < |init| ==> s[i] == init[i];
      }
    }
  }

  /** Decimal digits of a natural number, as `String(n)` writes them */
  function NatToString(n: nat): (s: string)
    ensures 1 <= |s|
    ensures forall i :: 0 <= i < |s| ==> '0' <= s[i] <= '9'
  {
    if n < 10 then ['0' + n as char]
    else NatToString(n / 10) + ['0' + (n % 10) as char]
  }
}
