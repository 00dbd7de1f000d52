/** Decimal text: `str(n)` for the agent ids and the plain signed decimals that Python's `float()`
    accepts in the policy tables ("+20", "-10", "+0.3", " 5 "). */
module Decimal {
  import opened Common

  predicate IsDigit(c: char) { '0' <= c <= '9' }

  predicate AllDigits(s: string) { forall i :: 0 <= i < |s| ==> IsDigit(s[i]) }

  function DigitValue(c: char): (d: nat)
    requires IsDigit(c)
    ensures d < 10
  {
    (c as int) - ('0' as int)
  }

  function DigitChar(d: nat): (c: char)
    requires d < 10
    ensures IsDigit(c) && DigitValue(c) == d
  {
    (('0' as int) + d) as char
  }

  /** The number a string of decimal digits denotes. */
  function DigitsValue(s: string): nat
    requires AllDigits(s)
  {
    if s == [] then 0 else DigitsValue(s[..|s| - 1]) * 10 + DigitValue(s[|s| - 1])
  }

  function Pow10(n: nat): (p: nat)
    ensures p >= 1
  {
    if n == 0 then 1 else 10 * Pow10(n - 1)
  }

  /** `str(n)` for a natural number. */
  function NatToString(n: nat): (s: string)
    ensures |s| > 0 && AllDigits(s)
  {
    if n < 10 then [DigitChar(n)] else NatToString(n / 10) + [DigitChar(n % 10)]
  }

  /** Reading back what `str` wrote gives the number again. */
  lemma {:induction false} NatToStringRoundTrip(n: nat)
    ensures DigitsValue(NatToString(n)) == n
  {
    var s := NatToString(n);
    if n >= 10 {
      NatToStringRoundTrip(n / 10);
      assert s[..|s| - 1] == NatToString(n / 10);
    }
  }

  /** Different numbers are written differently, so `enterprise_0`, `enterprise_1`, ... are distinct. */
  lemma NatToStringInjective(a: nat, b: nat)
    requires NatToString(a) == NatToString(b)
    ensures a == b
  {
    NatToStringRoundTrip(a);
    NatToStringRoundTrip(b);
  }

  /** The value "w.f" denotes. */
  function FractionValue(whole: string, frac: string): real
    requires AllDigits(whole) && AllDigits(frac)
  {
    DigitsValue(whole) as real + (DigitsValue(frac) as real) / (Pow10(|frac|) as real)
  }

  /** Unsigned body of a decimal: digits with at most one '.', and at least one digit. */
  function ParseUnsigned(s: string): (r: Option<real>)
    ensures r.Some? ==> r.value >= 0.0
  {
    match Find(s, ".", 0)
    case None =>
      if s != [] && AllDigits(s) then Some(DigitsValue(s) as real) else None
    case Some(d) =>
      var whole, frac := s[..d], s[d + 1..];
      if AllDigits(whole) && AllDigits(frac) && |whole| + |frac| > 0 then
        Some(FractionValue(whole, frac))
      else None
  }

  /** Python's `float(s)` restricted to plain signed decimals; `None` where it raises `ValueError`. */
  function ParseFloat(s: string): Option<real> {
    var t := Strip(s);
    if t != [] && t[0] == '-' then
      match ParseUnsigned(t[1..])
      case Some(x) => Some(-x)
      case None => None
    else if t != [] && t[0] == '+' then ParseUnsigned(t[1..])
    else ParseUnsigned(t)
  }

  lemma NoDotInDigits(s: string)
    requires AllDigits(s)
    ensures Find(s, ".", 0).None?
  {
    forall j: nat ensures !OccursAt(s, ".", j) {
      if j + 1 <= |s| {
        assert s[j..j + 1][0] == s[j];
      }
    }
  }

  lemma StripUnpadded(s: string)
    requires s != [] && !IsSpace(s[0]) && !IsSpace(s[|s| - 1])
    ensures Strip(s) == s
  {
  }

  lemma ParseDigits(s: string)
    requires s != [] && AllDigits(s)
    ensures ParseUnsigned(s) == Some(DigitsValue(s) as real)
  {
    NoDotInDigits(s);
  }

  /** With a sign in front and no padding at the end, the sign is read and the rest is the body. */
  lemma ParsePlus(body: string, v: real)
    requires body != [] && !IsSpace(body[|body| - 1])
    requires ParseUnsigned(body) == Some(v)
    ensures ParseFloat("+" + body) == Some(v)
  {
    var p := "+" + body;
    StripUnpadded(p);
    assert p[1..] == body;
  }

  lemma ParseMinus(body: string, v: real)
    requires body != [] && !IsSpace(body[|body| - 1])
    requires ParseUnsigned(body) == Some(v)
    ensures ParseFloat("-" + body) == Some(-v)
  {
    var m := "-" + body;
    StripUnpadded(m);
    assert m[1..] == body;
  }

  lemma ParseBareDigits(s: string)
    requires s != [] && AllDigits(s)
    ensures ParseFloat(s) == Some(DigitsValue(s) as real)
  {
    StripUnpadded(s);
    ParseDigits(s);
  }

  /** "+n" parses to n. */
  lemma ParsePlusInteger(n: nat)
    ensures ParseFloat("+" + NatToString(n)) == Some(n as real)
  {
    var s := NatToString(n);
    NatToStringRoundTrip(n);
    ParseDigits(s);
    ParsePlus(s, n as real);
  }

  /** "-n" parses to -n. */
  lemma ParseMinusInteger(n: nat)
    ensures ParseFloat("-" + NatToString(n)) == Some(-(n as real))
  {
    var s := NatToString(n);
    NatToStringRoundTrip(n);
    ParseDigits(s);
    ParseMinus(s, n as real);
  }

  /** "n" parses to n. */
  lemma ParseInteger(n: nat)
    ensures ParseFloat(NatToString(n)) == Some(n as real)
  {
    NatToStringRoundTrip(n);
    ParseBareDigits(NatToString(n));
  }

  lemma ParseWholeDotFraction(whole: string, frac: string)
    requires AllDigits(whole) && AllDigits(frac) && |whole| > 0
    ensures ParseUnsigned(whole + "." + frac) == Some(FractionValue(whole, frac))
  {
    var body := whole + "." + frac;
    FindDotAfterDigits(whole, frac);
    assert body[..|whole|] == whole;
    assert body[|whole| + 1..] == frac;
    ParseAtDot(body, |whole|);
  }

  lemma ParseAtDot(s: string, d: nat)
    requires Find(s, ".", 0) == Some(d)
    requires AllDigits(s[..d]) && AllDigits(s[d + 1..]) && d > 0
    ensures ParseUnsigned(s) == Some(FractionValue(s[..d], s[d + 1..]))
  {
  }

  lemma FindDotAfterDigits(whole: string, frac: string)
    requires AllDigits(whole)
    ensures Find(whole + "." + frac, ".", 0) == Some(|whole|)
  {
    var body := whole + "." + frac;
    assert body[|whole|..|whole| + 1] == ".";
    forall j: nat | j < |whole| ensures !OccursAt(body, ".", j) {
      assert body[j..j + 1][0] == whole[j];
    }
    FindFirst(body, ".", |whole|);
  }

  /** `find` returns the first place the pattern occurs. */
  lemma FindFirst(s: string, pat: string, k: nat)
    requires OccursAt(s, pat, k)
    requires forall j: nat :: j < k ==> !OccursAt(s, pat, j)
    ensures Find(s, pat, 0) == Some(k)
  {
  }

  /** A signed fraction "+w.f" parses to w + f / 10^|f|. */
  lemma ParseSignedFraction(whole: string, frac: string)
    requires AllDigits(whole) && AllDigits(frac) && |whole| > 0
    ensures ParseFloat("+" + whole + "." + frac) == Some(FractionValue(whole, frac))
  {
    var body := whole + "." + frac;
    assert "+" + whole + "." + frac == "+" + body;
    assert !IsSpace(body[|body| - 1]) by {
      if frac == [] { assert body[|body| - 1] == '.'; } else { assert body[|body| - 1] == frac[|frac| - 1]; }
    }
    ParseWholeDotFraction(whole, frac);
    ParsePlus(body, FractionValue(whole, frac));
  }

  /** Text that is not a decimal, such as "abc", does not parse. */
  lemma ParseRejectsLetters(s: string)
    requires s != [] && 'a' <= s[0] <= 'z'
    ensures ParseFloat(s) == None
  {
    assert !IsSpace(s[0]);
    var t := Strip(s);
    assert StripLeft(s) == s;
    if t != [] {
      assert t[0] == s[0];
      assert !IsDigit(t[0]);
      if Find(t, ".", 0).Some? {
        var d := Find(t, ".", 0).value;
        assert t[d] == '.';
        if d > 0 {
          assert t[..d][0] == t[0];
        }
      }
    }
  }
}
