/**
 * `Number.parseInt(s, 10)` as ECMAScript defines it: leading white space is
 * skipped, one optional sign is taken, and the longest run of decimal digits
 * that follows is read; with no such digit the result is NaN. Anything after
 * the digits (a decimal point, letters) is ignored.
 */
module JsParseInt {
  import opened JsValues

  /** ECMAScript's StrWhiteSpaceChar: the WhiteSpace and LineTerminator code points. */
  predicate IsWhiteSpace(c: char)
  {
    c == '\t' || c == '\n' || c == '\U{B}' || c == '\U{C}' || c == '\r' || c == ' '
    || c == '\U{A0}' || c == '\U{1680}' || ('\U{2000}' <= c <= '\U{200A}')
    || c == '\U{2028}' || c == '\U{2029}' || c == '\U{202F}' || c == '\U{205F}'
    || c == '\U{3000}' || c == '\U{FEFF}'
  }

  predicate IsDigit(c: char)
  {
    '0' <= c <= '9'
  }

  predicate IsSign(c: char)
  {
    c == '+' || c == '-'
  }

  predicate AllWhiteSpace(s: string)
  {
    forall i :: 0 <= i < |s| ==> IsWhiteSpace(s[i])
  }

  predicate AllDigits(s: string)
  {
    forall i :: 0 <= i < |s| ==> IsDigit(s[i])
  }

  function DigitValue(c: char): (d: nat)
    requires IsDigit(c)
    ensures d < 10
  {
    (c as int) - ('0' as int)
  }

  function DigitChar(d: nat): (c: char)
    requires d < 10
    ensures IsDigit(c) && DigitValue(c) == d
  {
    (('0' as int) + d) as char
  }

  /** The string without its leading white space. */
  function TrimStart(s: string): (r: string)
    ensures |r| <= |s| && r == s[|s| - |r|..]
    ensures r == [] || !IsWhiteSpace(r[0])
  {
    if s != [] && IsWhiteSpace(s[0]) then TrimStart(s[1..]) else s
  }

  /** What TrimStart removes is white space. */
  lemma {:induction false} TrimStartRemovesWhiteSpace(s: string)
    ensures AllWhiteSpace(s[..|s| - |TrimStart(s)|])
  {
    if s != [] && IsWhiteSpace(s[0]) {
      TrimStartRemovesWhiteSpace(s[1..]);
      assert s[..|s| - |TrimStart(s)|] == [s[0]] + s[1..][..|s[1..]| - |TrimStart(s[1..])|];
    }
  }

  /** The longest prefix of decimal digits. */
  function LeadingDigits(s: string): (r: string)
    ensures |r| <= |s| && r == s[..|r|]
    ensures AllDigits(r)
    ensures |r| == |s| || !IsDigit(s[|r|])
  {
    if s != [] && IsDigit(s[0]) then [s[0]] + LeadingDigits(s[1..]) else []
  }

  /** The value of a string of decimal digits, most significant first. */
  function DigitsValue(ds: string): nat
    requires AllDigits(ds)
  {
    if ds == [] then 0 else 10 * DigitsValue(ds[..|ds| - 1]) + DigitValue(ds[|ds| - 1])
  }

  /** The text after one optional leading sign. */
  function StripSign(t: string): string
  {
    if t != [] && IsSign(t[0]) then t[1..] else t
  }

  /** The value with the sign that `t` starts with. */
  function Signed(t: string, value: nat): int
  {
    if t != [] && t[0] == '-' then -(value as int) else value
  }

  function ParseInt(s: string): (r: Num)
    ensures r.Fin? ==> r.v == r.v.Floor as real
  {
    var t := TrimStart(s);
    var digits := LeadingDigits(StripSign(t));
    if digits == [] then NaN else Fin(Signed(t, DigitsValue(digits)) as real)
  }

  /**
   * The condition under which parseInt finds a number, stated without
   * reference to how it scans: after some white space comes a digit, or a
   * sign followed by a digit.
   */
  ghost predicate StartsWithInteger(s: string)
  {
    exists k :: 0 <= k < |s| && AllWhiteSpace(s[..k]) && IsNumberStart(s, k)
  }

  predicate IsNumberStart(s: string, k: nat)
    requires k < |s|
  {
    IsDigit(s[k]) || (IsSign(s[k]) && k + 1 < |s| && IsDigit(s[k + 1]))
  }

  lemma {:induction false} ParseIntNaNIff(s: string)
    ensures ParseInt(s).NaN? <==> !StartsWithInteger(s)
  {
    var t := TrimStart(s);
    var k := |s| - |t|;
    TrimStartRemovesWhiteSpace(s);
    if ParseInt(s).Fin? {
      assert s[k] == t[0];
      assert IsNumberStart(s, k);
    }
    if StartsWithInteger(s) {
      var k' :| 0 <= k' < |s| && AllWhiteSpace(s[..k']) && IsNumberStart(s, k');
      if k < |s| {
        WhiteSpacePrefixEndsAt(s, k', k);
      }
      WhiteSpacePrefixEndsAt(s, k, k');
      assert t[0] == s[k];
      if IsSign(t[0]) {
        assert t[1..][0] == s[k + 1];
      }
    }
  }

  /** A run of white space at the start of `s` cannot extend past a non-white-space character. */
  lemma {:induction false} WhiteSpacePrefixEndsAt(s: string, j: nat, k: nat)
    requires j <= |s| && AllWhiteSpace(s[..j])
    requires k < |s| && !IsWhiteSpace(s[k])
    ensures j <= k
  {
  }

  /** Leading white space never changes the result. */
  lemma {:induction false} ParseIntSkipsWhiteSpace(w: string, s: string)
    requires AllWhiteSpace(w)
    ensures ParseInt(w + s) == ParseInt(s)
  {
    TrimStartSkipsWhiteSpace(w, s);
  }

  lemma {:induction false} TrimStartSkipsWhiteSpace(w: string, s: string)
    requires AllWhiteSpace(w)
    ensures TrimStart(w + s) == TrimStart(s)
  {
    if w != [] {
      assert (w + s)[1..] == w[1..] + s;
      TrimStartSkipsWhiteSpace(w[1..], s);
    } else {
      assert w + s == s;
    }
  }

  /** The decimal rendering of a natural number, without leading zeros. */
  function NatToDecimal(n: nat): (r: string)
    ensures r != [] && AllDigits(r)
  {
    if n < 10 then [DigitChar(n)] else NatToDecimal(n / 10) + [DigitChar(n % 10)]
  }

  /** The decimal rendering of an integer, as `String(n)` gives it for integers. */
  function IntToDecimal(n: int): string
  {
    if n < 0 then "-" + NatToDecimal(-n) else NatToDecimal(n)
  }

  lemma {:induction false} DigitsValueOfDecimal(n: nat)
    ensures DigitsValue(NatToDecimal(n)) == n
  {
    if n >= 10 {
      var ds := NatToDecimal(n);
      assert ds[..|ds| - 1] == NatToDecimal(n / 10);
      DigitsValueOfDecimal(n / 10);
    }
  }

  lemma {:induction false} LeadingDigitsStopsAtNonDigit(ds: string, rest: string)
    requires AllDigits(ds)
    requires rest == [] || !IsDigit(rest[0])
    ensures LeadingDigits(ds + rest) == ds
  {
    if ds == [] {
      assert ds + rest == rest;
    } else {
      assert (ds + rest)[1..] == ds[1..] + rest;
      LeadingDigitsStopsAtNonDigit(ds[1..], rest);
    }
  }

  /**
   * parseInt reads back the decimal rendering of any integer, whatever
   * non-digit text follows it.
   */
  lemma {:induction false} ParseIntRoundTrip(n: int, rest: string)
    requires rest == [] || !IsDigit(rest[0])
    ensures ParseInt(IntToDecimal(n) + rest) == Fin(n as real)
  {
    var m: nat := if n < 0 then -n else n;
    DigitsValueOfDecimal(m);
    if n < 0 {
      assert IntToDecimal(n) + rest == ['-'] + (NatToDecimal(m) + rest);
      ParseNegativeDigits(NatToDecimal(m), rest);
    } else {
      ParseDigits(NatToDecimal(m), rest);
    }
  }

  lemma {:induction false} ParseDigits(ds: string, rest: string)
    requires ds != [] && AllDigits(ds)
    requires rest == [] || !IsDigit(rest[0])
    ensures ParseInt(ds + rest) == Fin(DigitsValue(ds) as real)
  {
    var s := ds + rest;
    assert s[0] == ds[0] && IsDigit(s[0]) && !IsWhiteSpace(s[0]);
    assert TrimStart(s) == s;
    assert StripSign(s) == s;
    LeadingDigitsStopsAtNonDigit(ds, rest);
  }

  lemma {:induction false} ParseNegativeDigits(ds: string, rest: string)
    requires ds != [] && AllDigits(ds)
    requires rest == [] || !IsDigit(rest[0])
    ensures ParseInt(['-'] + (ds + rest)) == Fin(-(DigitsValue(ds) as real))
  {
    var s := ['-'] + (ds + rest);
    assert TrimStart(s) == s;
    assert StripSign(s) == ds + rest;
    LeadingDigitsStopsAtNonDigit(ds, rest);
  }

  /** A fractional part is dropped, not rounded: "12.9" reads as 12. */
  lemma ParseIntDropsFraction()
    ensures ParseInt("12.9") == Fin(12.0)
  {
    assert IntToDecimal(12) == "12";
    assert "12.9" == IntToDecimal(12) + ".9";
    ParseIntRoundTrip(12, ".9");
  }

  /** Leading blanks and a sign are taken, trailing text is ignored. */
  lemma ParseIntSignAndSuffix()
    ensures ParseInt(" -7px") == Fin(-7.0)
  {
    assert IntToDecimal(-7) == "-7";
    assert " -7px" == " " + (IntToDecimal(-7) + "px");
    ParseIntRoundTrip(-7, "px");
    ParseIntSkipsWhiteSpace(" ", IntToDecimal(-7) + "px");
  }

  /** Without a leading digit the result is NaN. */
  lemma ParseIntWithoutDigits()
    ensures ParseInt("abc").NaN? && ParseInt("").NaN? && ParseInt("-").NaN?
  {
    assert !IsWhiteSpace('a') && !IsDigit('a') && !IsSign('a');
    assert TrimStart("abc") == "abc";
    assert StripSign("abc") == "abc";
    assert LeadingDigits("abc") == [];
    assert !IsWhiteSpace('-') && IsSign('-');
    assert TrimStart("-") == "-";
    assert StripSign("-") == [];
    assert LeadingDigits([]) == [];
  }
}
