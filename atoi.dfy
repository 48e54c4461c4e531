/**
 * The C library's atoi (section 7.22.1.2 of ISO C11): leading white space,
 * an optional sign, then as many decimal digits as follow; text without
 * digits reads as 0. C leaves an out-of-range value undefined; the Windows C
 * runtime the burner is built against returns INT_MAX or INT_MIN, and so
 * does this model.
 */
module CRuntime {

  import opened Text

  const IntMin: int := -0x8000_0000
  const IntMax: int := 0x7FFF_FFFF

  /** isspace() in the "C" locale. */
  predicate IsCSpace(c: char) {
    c == ' ' || ('\t' <= c <= '\r')
  }

  /** The number of white-space characters `s` starts with. */
  function LeadingSpaces(s: string): (k: nat)
    ensures k <= |s|
    ensures forall i :: 0 <= i < k ==> IsCSpace(s[i])
    ensures k < |s| ==> !IsCSpace(s[k])
  {
    if s == [] || !IsCSpace(s[0]) then 0 else 1 + LeadingSpaces(s[1..])
  }

  /** The number of decimal digits `s` starts with. */
  function LeadingDigits(s: string): (k: nat)
    ensures k <= |s| && AllDigits(s[..k])
    ensures k < |s| ==> !IsDigit(s[k])
  {
    if s == [] || !IsDigit(s[0]) then 0
    else
      var k := 1 + LeadingDigits(s[1..]);
      assert s[..k] == [s[0]] + s[1..][..k - 1];
      k
  }

  function Saturate(v: int): (r: int)
    ensures IntMin <= r <= IntMax
    ensures IntMin <= v <= IntMax ==> r == v
  {
    if v < IntMin then IntMin else if v > IntMax then IntMax else v
  }

  /** The value of the digits a body starts with; 0 when it starts with none. */
  function Magnitude(body: string): nat {
    DigitsValue(body[..LeadingDigits(body)])
  }

  /** strtol's reading of text that starts at the sign or the first digit, before any saturation. */
  function SignedValue(t: string): int {
    if |t| > 0 && t[0] == '-' then -(Magnitude(t[1..]) as int)
    else if |t| > 0 && t[0] == '+' then Magnitude(t[1..])
    else Magnitude(t)
  }

  function Atoi(s: string): (r: int)
    ensures IntMin <= r <= IntMax
  {
    Saturate(SignedValue(s[LeadingSpaces(s)..]))
  }

  /** Digits followed by a non-digit: the run of leading digits is exactly the digits. */
  lemma {:induction false} LeadingDigitsOf(d: string, tail: string)
    requires AllDigits(d)
    requires tail == [] || !IsDigit(tail[0])
    ensures LeadingDigits(d + tail) == |d|
  {
    if d != [] {
      assert (d + tail)[1..] == d[1..] + tail;
      LeadingDigitsOf(d[1..], tail);
    } else {
      assert d + tail == tail;
    }
  }

  /** The value atoi gives a sign-less, space-less body, before saturation. */
  lemma {:induction false} BodyValue(digits: string, tail: string, m: nat)
    requires digits == NatDigits(m)
    requires tail == [] || !IsDigit(tail[0])
    ensures Magnitude(digits + tail) == m
  {
    LeadingDigitsOf(digits, tail);
    assert (digits + tail)[..|digits|] == digits;
    NatDigitsValue(m);
  }

  /** The signed reading of a decimal spelling, whatever text follows it. */
  lemma SignedValueOfDecimal(n: int, tail: string)
    requires tail == [] || !IsDigit(tail[0])
    ensures SignedValue(Decimal(n) + tail) == n
  {
    if n < 0 {
      var body := NatDigits(-n) + tail;
      BodyValue(NatDigits(-n), tail, -n);
      assert Decimal(n) + tail == ['-'] + body;
      assert (['-'] + body)[1..] == body;
    } else {
      var body := NatDigits(n) + tail;
      BodyValue(NatDigits(n), tail, n);
      assert Decimal(n) + tail == body;
      assert IsDigit(body[0]);
    }
  }

  /** atoi reads the decimal spelling of an int back, whatever text follows it. */
  lemma AtoiReadsLeadingNumber(n: int, tail: string)
    requires IntMin <= n <= IntMax
    requires tail == [] || !IsDigit(tail[0])
    ensures Atoi(Decimal(n) + tail) == n
  {
    var s := Decimal(n) + tail;
    SignedValueOfDecimal(n, tail);
    assert s[0] == Decimal(n)[0];
    assert !IsCSpace(s[0]);
    assert s[LeadingSpaces(s)..] == s;
  }

  /** Text with no digit at all, such as "abc" or "", reads as 0. */
  lemma AtoiWithoutDigits(s: string)
    requires forall i :: 0 <= i < |s| ==> !IsDigit(s[i])
    ensures Atoi(s) == 0
  {
    var t := s[LeadingSpaces(s)..];
    var body := if |t| > 0 && (t[0] == '-' || t[0] == '+') then t[1..] else t;
    if body != [] {
      assert body[0] == s[|s| - |body|];
    }
    assert body[..LeadingDigits(body)] == [];
    assert Magnitude(body) == 0;
  }

  /**
   * Text that does not start with a number reads as 0, digits later on or not:
   * "x5", "-x5" and "abc10" all read as 0. Together with AtoiSkipsSpace this
   * covers every text whose first non-space characters are no optional sign
   * followed by a digit.
   */
  lemma AtoiOfNonNumber(s: string)
    requires s == [] || (!IsDigit(s[0]) && !IsCSpace(s[0])
      && ((s[0] == '+' || s[0] == '-') ==> |s| == 1 || !IsDigit(s[1])))
    ensures Atoi(s) == 0
  {
    assert LeadingSpaces(s) == 0;
    assert s[LeadingSpaces(s)..] == s;
    var body := if |s| > 0 && (s[0] == '-' || s[0] == '+') then s[1..] else s;
    assert LeadingDigits(body) == 0;
    assert body[..0] == [];
    assert Magnitude(body) == 0;
  }

  /** White space in front of text adds its length to the white space the text starts with. */
  lemma {:induction false} LeadingSpacesAfter(sp: string, rest: string)
    requires forall i :: 0 <= i < |sp| ==> IsCSpace(sp[i])
    ensures LeadingSpaces(sp + rest) == |sp| + LeadingSpaces(rest)
  {
    if sp != [] {
      assert (sp + rest)[1..] == sp[1..] + rest;
      LeadingSpacesAfter(sp[1..], rest);
    } else {
      assert sp + rest == rest;
    }
  }

  /** Leading white space is skipped: "  42" reads as "42" does. */
  lemma AtoiSkipsSpace(sp: string, rest: string)
    requires forall i :: 0 <= i < |sp| ==> IsCSpace(sp[i])
    ensures Atoi(sp + rest) == Atoi(rest)
  {
    LeadingSpacesAfter(sp, rest);
    assert (sp + rest)[|sp| + LeadingSpaces(rest)..] == rest[LeadingSpaces(rest)..];
  }

  /** The value of a run of digits, ended by a non-digit or by the end of the text. */
  lemma DigitsMagnitude(d: string, tail: string)
    requires AllDigits(d)
    requires tail == [] || !IsDigit(tail[0])
    ensures Magnitude(d + tail) == DigitsValue(d)
  {
    LeadingDigitsOf(d, tail);
    assert (d + tail)[..|d|] == d;
  }

  /**
   * Unsigned digits, leading zeros included, read as their value, and a value
   * past INT_MAX reads as INT_MAX.
   */
  lemma AtoiOfDigits(d: string, tail: string)
    requires d != [] && AllDigits(d)
    requires tail == [] || !IsDigit(tail[0])
    ensures Atoi(d + tail) == Saturate(DigitsValue(d))
    ensures DigitsValue(d) > IntMax ==> Atoi(d + tail) == IntMax
  {
    var s := d + tail;
    assert s[0] == d[0];
    assert !IsCSpace(s[0]);
    assert s[LeadingSpaces(s)..] == s;
    DigitsMagnitude(d, tail);
  }

  /**
   * A sign followed by digits reads as the signed value: `+` keeps it, `-`
   * negates it, and a value beyond the int range saturates to its nearer end.
   */
  lemma AtoiOfSignedDigits(sign: char, d: string, tail: string)
    requires sign == '+' || sign == '-'
    requires d != [] && AllDigits(d)
    requires tail == [] || !IsDigit(tail[0])
    ensures Atoi([sign] + d + tail) == Saturate(if sign == '-' then -(DigitsValue(d) as int) else DigitsValue(d))
    ensures sign == '-' && DigitsValue(d) > -IntMin ==> Atoi([sign] + d + tail) == IntMin
  {
    var s := [sign] + d + tail;
    assert !IsCSpace(s[0]);
    assert s[LeadingSpaces(s)..] == s;
    assert s[1..] == d + tail;
    DigitsMagnitude(d, tail);
  }

  /** Leading spaces are skipped: "  42" reads as 42. */
  lemma AtoiSpacesExample()
    ensures Atoi("  42") == 42
  {
    assert "42"[..1] == "4";
    assert DigitsValue("42") == 42;
    assert "  " + ("42" + "") == "  42";
    AtoiSkipsSpace("  ", "42");
    AtoiOfDigits("42", "");
  }

  /** A plus sign and leading zeros are accepted: "+007" reads as 7. */
  lemma AtoiPlusZerosExample()
    ensures Atoi("+007") == 7
  {
    assert "007"[..2] == "00" && "00"[..1] == "0";
    assert DigitsValue("007") == 7;
    assert ['+'] + "007" + "" == "+007";
    AtoiOfSignedDigits('+', "007", "");
  }

  /** Any spelling of a number past the int range, such as 99999999999, saturates to INT_MAX or INT_MIN. */
  lemma AtoiSaturates(n: int, tail: string)
    requires n > IntMax || n < IntMin
    requires tail == [] || !IsDigit(tail[0])
    ensures n > IntMax ==> Atoi(Decimal(n) + tail) == IntMax
    ensures n < IntMin ==> Atoi(Decimal(n) + tail) == IntMin
  {
    var m := if n < 0 then -n else n;
    NatDigitsValue(m);
    if n > IntMax {
      assert Decimal(n) == NatDigits(m);
      AtoiOfDigits(NatDigits(m), tail);
    } else {
      assert Decimal(n) + tail == ['-'] + NatDigits(m) + tail;
      AtoiOfSignedDigits('-', NatDigits(m), tail);
    }
  }
}
