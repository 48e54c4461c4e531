/**
 * The telemetry probe's parse of the diagnostic tool's output: the first line
 * of the text, stripped of surrounding white space, read as a decimal integer
 * the way Python's int() reads it. Every failure yields an absent reading.
 */
module Telemetry {

  import opened Wrappers
  import opened Text

  /** Characters at which Python's str.splitlines() ends a line. */
  predicate IsLineBoundary(c: char) {
    c == '\n' || c == '\r' || c == '\U{0B}' || c == '\U{0C}' || ('\U{1C}' <= c <= '\U{1E}')
    || c == '\U{85}' || c == '\U{2028}' || c == '\U{2029}'
  }

  /** Characters Python's str.strip() removes when called without arguments. */
  predicate IsSpace(c: char) {
    ('\t' <= c <= '\r') || ('\U{1C}' <= c <= ' ') || c == '\U{85}' || c == '\U{A0}' || c == '\U{1680}'
    || ('\U{2000}' <= c <= '\U{200A}') || c == '\U{2028}' || c == '\U{2029}' || c == '\U{202F}'
    || c == '\U{205F}' || c == '\U{3000}'
  }

  /** Length of the first line of `s`: the position of its first line boundary, or |s| when it has none. */
  function LineEnd(s: string): (k: nat)
    ensures k <= |s|
    ensures forall i :: 0 <= i < k ==> !IsLineBoundary(s[i])
    ensures k < |s| ==> IsLineBoundary(s[k])
  {
    if s == [] || IsLineBoundary(s[0]) then 0 else 1 + LineEnd(s[1..])
  }

  /** The first element of `out.splitlines()`; absent when the text is empty and the list has no element. */
  function FirstLine(out: string): (line: Option<string>)
    ensures out == [] <==> line.None?
    ensures line.Some? ==> |line.value| <= |out| && line.value == out[..|line.value|]
    ensures line.Some? ==> forall i :: 0 <= i < |line.value| ==> !IsLineBoundary(line.value[i])
    ensures line.Some? && |line.value| < |out| ==> IsLineBoundary(out[|line.value|])
  {
    if out == [] then None else Some(out[..LineEnd(out)])
  }

  /** `s` with the white space at both of its ends removed. */
  function Strip(s: string): (r: string)
    ensures |r| <= |s|
    ensures forall i :: 0 <= i < |r| ==> r[i] in s
    ensures r == [] || (!IsSpace(r[0]) && !IsSpace(r[|r| - 1]))
    ensures (exists i :: 0 <= i < |s| && !IsSpace(s[i])) ==> r != []
    decreases |s|
  {
    if s == [] then []
    else if IsSpace(s[0]) then Strip(s[1..])
    else if IsSpace(s[|s| - 1]) then Strip(s[..|s| - 1])
    else s
  }

  /** Everything before position `a` and from position `b` on is white space. */
  predicate SpaceOutside(s: string, a: int, b: int)
    requires 0 <= a <= b <= |s|
  {
    (forall i :: 0 <= i < a ==> IsSpace(s[i])) && (forall i :: b <= i < |s| ==> IsSpace(s[i]))
  }

  /** Stripping keeps one contiguous stretch of the text and removes only white space around it. */
  lemma StripKeepsInfix(s: string)
    ensures exists a, b :: 0 <= a <= b <= |s| && Strip(s) == s[a..b] && SpaceOutside(s, a, b)
  {
    var a, b := StripBounds(s);
  }

  /** Where the stretch `Strip` keeps begins and ends. */
  lemma {:induction false} StripBounds(s: string) returns (a: nat, b: nat)
    ensures a <= b <= |s| && Strip(s) == s[a..b] && SpaceOutside(s, a, b)
    decreases |s|
  {
    if s == [] {
      a, b := 0, 0;
    } else if IsSpace(s[0]) {
      var a', b' := StripBounds(s[1..]);
      SpaceOutsideAfterLeading(s, a', b');
      a, b := a' + 1, b' + 1;
      assert s[1..][a'..b'] == s[a..b];
    } else if IsSpace(s[|s| - 1]) {
      a, b := StripBounds(s[..|s| - 1]);
      SpaceOutsideBeforeTrailing(s, a, b);
      assert s[..|s| - 1][a..b] == s[a..b];
    } else {
      a, b := 0, |s|;
    }
  }

  lemma SpaceOutsideAfterLeading(s: string, a: nat, b: nat)
    requires s != [] && IsSpace(s[0]) && a <= b <= |s| - 1 && SpaceOutside(s[1..], a, b)
    ensures SpaceOutside(s, a + 1, b + 1)
  {
    forall i | 0 < i < a + 1 ensures IsSpace(s[i]) {
      assert s[i] == s[1..][i - 1];
    }
    forall i | b + 1 <= i < |s| ensures IsSpace(s[i]) {
      assert s[i] == s[1..][i - 1];
    }
  }

  lemma SpaceOutsideBeforeTrailing(s: string, a: nat, b: nat)
    requires s != [] && IsSpace(s[|s| - 1]) && a <= b <= |s| - 1 && SpaceOutside(s[..|s| - 1], a, b)
    ensures SpaceOutside(s, a, b)
  {
    forall i | 0 <= i < a ensures IsSpace(s[i]) {
      assert s[i] == s[..|s| - 1][i];
    }
    forall i | b <= i < |s| - 1 ensures IsSpace(s[i]) {
      assert s[i] == s[..|s| - 1][i];
    }
  }

  /** Spaces and tabs: the padding the tool may put around a value. */
  predicate IsPadding(s: string) {
    forall i :: 0 <= i < |s| ==> s[i] == ' ' || s[i] == '\t'
  }

  /** Padding on either side of a word that neither starts nor ends with white space is stripped away. */
  lemma {:induction false} StripPadding(pre: string, word: string, post: string)
    requires IsPadding(pre) && IsPadding(post)
    requires word != [] && !IsSpace(word[0]) && !IsSpace(word[|word| - 1])
    ensures Strip(pre + word + post) == word
    decreases |pre| + |post|
  {
    var s := pre + word + post;
    if pre != [] {
      assert s[1..] == pre[1..] + word + post;
      StripPadding(pre[1..], word, post);
    } else if post != [] {
      assert s[0] == word[0];
      assert s[..|s| - 1] == pre + word + post[..|post| - 1];
      StripPadding(pre, word, post[..|post| - 1]);
    } else {
      assert s == word;
    }
  }

  /** The digits of Python's int() literal syntax: digits with single underscores between them. */
  predicate IsDigitGroup(d: string) {
    && |d| > 0 && IsDigit(d[0]) && IsDigit(d[|d| - 1])
    && (forall i :: 0 <= i < |d| ==> IsDigit(d[i]) || d[i] == '_')
    && (forall i :: 0 <= i < |d| - 1 ==> d[i] == '_' ==> d[i + 1] != '_')
  }

  /** `d` with its underscores dropped. */
  function WithoutUnderscores(d: string): (r: string)
    ensures (forall i :: 0 <= i < |d| ==> IsDigit(d[i]) || d[i] == '_') ==> AllDigits(r)
    ensures AllDigits(d) ==> r == d
  {
    if d == [] then [] else (if d[0] == '_' then [] else [d[0]]) + WithoutUnderscores(d[1..])
  }

  /** Python's int() on an already stripped string: an optional sign and a digit group, or failure. */
  function ParseInt(s: string): (r: Option<int>)
    ensures (forall i :: 0 <= i < |s| ==> !IsDigit(s[i])) ==> r.None?
    ensures r.Some? ==> forall i :: 0 <= i < |s| ==>
      IsDigit(s[i]) || s[i] == '_' || (i == 0 && (s[i] == '-' || s[i] == '+'))
    ensures r.Some? ==> forall i :: 0 <= i < |s| && s[i] == '_' ==>
      0 < i < |s| - 1 && IsDigit(s[i - 1]) && IsDigit(s[i + 1])
    ensures s != [] && AllDigits(s) ==> r == Some(DigitsValue(s))
    ensures |s| > 1 && s[0] == '+' && AllDigits(s[1..]) ==> r == Some(DigitsValue(s[1..]))
    ensures |s| > 1 && s[0] == '-' && AllDigits(s[1..]) ==> r == Some(-(DigitsValue(s[1..]) as int))
  {
    var negative := |s| > 0 && s[0] == '-';
    var body := if |s| > 0 && (s[0] == '-' || s[0] == '+') then s[1..] else s;
    if IsDigitGroup(body) then
      var magnitude: int := DigitsValue(WithoutUnderscores(body));
      Some(if negative then -magnitude else magnitude)
    else
      None
  }

  /**
   * A probe reading from the tool's output; `output` is absent when the tool
   * could not be run or exited with an error.
   */
  function ProbeReading(output: Option<string>): (r: Option<int>)
    ensures output.None? || output == Some("") ==> r.None?
  {
    match output
    case None => None
    case Some(out) =>
      match FirstLine(out)
      case None => None
      case Some(line) => ParseInt(Strip(line))
  }

  /** Int() reads back the decimal spelling of every integer. */
  lemma ParseIntDecimal(n: int)
    ensures ParseInt(Decimal(n)) == Some(n)
  {
    var digits := NatDigits(if n < 0 then -n else n);
    NatDigitsValue(if n < 0 then -n else n);
    if n < 0 {
      assert Decimal(n)[1..] == digits;
    }
  }

  /** Output with no digit at all (such as "[N/A]" or "[Not Supported]") is an absent reading, not an error. */
  lemma NoDigitsIsAbsent(out: string)
    requires forall i :: 0 <= i < |out| ==> !IsDigit(out[i])
    ensures ProbeReading(Some(out)) == None
  {
    if out != [] {
      var line := FirstLine(out).value;
      var stripped := Strip(line);
      forall i | 0 <= i < |stripped| ensures !IsDigit(stripped[i]) {
        var j :| 0 <= j < |line| && line[j] == stripped[i];
        assert line[j] == out[j];
      }
    }
  }

  /**
   * The tool's output for a value, padded or not, alone or followed by a line
   * break and further lines, reads as that value.
   */
  lemma ProbeReadsValue(n: int, pre: string, post: string, tail: string)
    requires IsPadding(pre) && IsPadding(post)
    requires tail == [] || IsLineBoundary(tail[0])
    ensures ProbeReading(Some(pre + Decimal(n) + post + tail)) == Some(n)
  {
    var word := Decimal(n);
    var line := pre + word + post;
    var out := line + tail;
    assert forall i :: 0 <= i < |word| ==> IsDigit(word[i]) || word[i] == '-' by {
      if n >= 0 {
        assert word == NatDigits(n);
      } else {
        assert word == "-" + NatDigits(-n);
      }
    }
    assert forall i :: 0 <= i < |line| ==> !IsLineBoundary(line[i]) by {
      forall i | 0 <= i < |line| ensures !IsLineBoundary(line[i]) {
        if i < |pre| {
          assert line[i] == pre[i];
        } else if i < |pre| + |word| {
          assert line[i] == word[i - |pre|];
        } else {
          assert line[i] == post[i - |pre| - |word|];
        }
      }
    }
    LineEndOfLine(line, tail);
    assert FirstLine(out) == Some(line);
    assert !IsSpace(word[|word| - 1]) by {
      if n >= 0 {
        assert word == NatDigits(n);
      } else {
        assert word == "-" + NatDigits(-n);
        assert word[|word| - 1] == NatDigits(-n)[|NatDigits(-n)| - 1];
      }
    }
    StripPadding(pre, word, post);
    ParseIntDecimal(n);
  }

  /** A line without boundaries, followed by a boundary, is the whole first line. */
  lemma {:induction false} LineEndOfLine(line: string, tail: string)
    requires forall i :: 0 <= i < |line| ==> !IsLineBoundary(line[i])
    requires tail == [] || IsLineBoundary(tail[0])
    ensures LineEnd(line + tail) == |line|
  {
    if line != [] {
      assert (line + tail)[1..] == line[1..] + tail;
      LineEndOfLine(line[1..], tail);
    } else {
      assert line + tail == tail;
    }
  }
}
