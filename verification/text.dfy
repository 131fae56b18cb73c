/** Character classes and string transforms that the storefront takes from
    JavaScript: `String.prototype.trim`, the regular-expression classes `\s`
    and `\d`, `replace(/\s/g, '')`, `replace(/[^0-9]/g, '')` and the
    UTF-16 `length` of a string. */
module Text {

  /** `\s` in a JavaScript regular expression and the characters `trim()`
      removes: the WhiteSpace and LineTerminator productions of ECMA-262
      (section 12.2 and 12.3), with the Unicode "Zs" category written out. */
  predicate IsWhitespace(c: char) {
    var n := c as int;
    || 0x09 <= n <= 0x0D   // tab, line feed, vertical tab, form feed, carriage return
    || n == 0x20 || n == 0xA0 || n == 0x1680
    || 0x2000 <= n <= 0x200A
    || n == 0x2028 || n == 0x2029
    || n == 0x202F || n == 0x205F || n == 0x3000
    || n == 0xFEFF
  }

  /** `\d` in a JavaScript regular expression: ASCII digits only. */
  predicate IsDigit(c: char) {
    '0' <= c <= '9'
  }

  predicate AllDigits(s: string) {
    forall i | 0 <= i < |s| :: IsDigit(s[i])
  }

  predicate NoWhitespace(s: string) {
    forall i | 0 <= i < |s| :: !IsWhitespace(s[i])
  }

  /** Every character is whitespace; the empty string is blank. */
  predicate IsBlank(s: string) {
    forall i | 0 <= i < |s| :: IsWhitespace(s[i])
  }

  function DigitValue(c: char): (d: nat)
    requires IsDigit(c)
    ensures d <= 9
  {
    c as int - '0' as int
  }

  // ---------------------------------------------------------------------
  // trim()

  /** Number of whitespace characters at the front of `s`. */
  function LeadingWhitespace(s: string): (k: nat)
    ensures k <= |s|
    ensures IsBlank(s[..k])
    ensures k < |s| ==> !IsWhitespace(s[k])
    decreases |s|
  {
    if |s| == 0 || !IsWhitespace(s[0]) then 0
    else
      var k' := LeadingWhitespace(s[1..]);
      assert s[1..][..k'] == s[1..k' + 1];
      1 + k'
  }

  /** Number of whitespace characters at the back of `s`. */
  function TrailingWhitespace(s: string): (k: nat)
    ensures k <= |s|
    ensures IsBlank(s[|s| - k..])
    ensures k < |s| ==> !IsWhitespace(s[|s| - k - 1])
    decreases |s|
  {
    if |s| == 0 || !IsWhitespace(s[|s| - 1]) then 0
    else
      var init := s[..|s| - 1];
      var k' := TrailingWhitespace(init);
      assert init[|init| - k'..] == s[|s| - 1 - k'..|s| - 1];
      1 + k'
  }

  /** `s.trim()`: `s` without its leading and trailing whitespace. */
  function Trim(s: string): (r: string)
    ensures |r| <= |s|
    ensures r == "" <==> IsBlank(s)
    ensures r != "" ==> !IsWhitespace(r[0]) && !IsWhitespace(r[|r| - 1])
  {
    var lead := LeadingWhitespace(s);
    var rest := s[lead..];
    var trail := TrailingWhitespace(rest);
    var r := rest[..|rest| - trail];
    assert IsBlank(s) ==> lead == |s| by {
      if lead < |s| { assert !IsWhitespace(s[lead]); }
    }
    assert r == "" ==> IsBlank(s) by {
      if r == "" {
        assert rest[|rest| - trail..] == rest;
        assert s == s[..lead] + rest;
      }
    }
    assert r != "" ==> r[0] == s[lead] && r[|r| - 1] == rest[|rest| - trail - 1];
    r
  }

  // ---------------------------------------------------------------------
  // replace(/\s/g, '') and replace(/[^0-9]/g, '')

  /** `s.replace(/\s/g, '')`: `s` with every whitespace character removed. */
  function StripWhitespace(s: string): (r: string)
    ensures |r| <= |s|
    ensures NoWhitespace(r)
    ensures NoWhitespace(s) ==> r == s
    ensures IsBlank(s) ==> r == ""
    decreases |s|
  {
    if |s| == 0 then ""
    else if IsWhitespace(s[0]) then StripWhitespace(s[1..])
    else [s[0]] + StripWhitespace(s[1..])
  }

  /** `s.replace(/[^0-9]/g, '')`: the ASCII digits of `s`, in order. */
  function KeepDigits(s: string): (r: string)
    ensures |r| <= |s|
    ensures AllDigits(r)
    ensures AllDigits(s) ==> r == s
    ensures |s| == 1 ==> r == (if IsDigit(s[0]) then s else "")
    decreases |s|
  {
    if |s| == 0 then ""
    else if IsDigit(s[0]) then [s[0]] + KeepDigits(s[1..])
    else KeepDigits(s[1..])
  }

  /** Removing whitespace first does not change which digits survive:
      digits are never whitespace. */
  lemma {:induction false} KeepDigitsIgnoresWhitespace(s: string)
    ensures KeepDigits(StripWhitespace(s)) == KeepDigits(s)
    decreases |s|
  {
    if |s| > 0 {
      KeepDigitsIgnoresWhitespace(s[1..]);
      if !IsWhitespace(s[0]) {
        var t := [s[0]] + StripWhitespace(s[1..]);
        assert t[0] == s[0] && t[1..] == StripWhitespace(s[1..]);
      }
    }
  }

  /** Both filters distribute over concatenation. */
  lemma {:induction false} StripWhitespaceAppend(a: string, b: string)
    ensures StripWhitespace(a + b) == StripWhitespace(a) + StripWhitespace(b)
    decreases |a|
  {
    if |a| > 0 {
      assert (a + b)[0] == a[0] && (a + b)[1..] == a[1..] + b;
      StripWhitespaceAppend(a[1..], b);
      if !IsWhitespace(a[0]) {
        var x, y := StripWhitespace(a[1..]), StripWhitespace(b);
        assert [a[0]] + (x + y) == ([a[0]] + x) + y;
      }
    } else {
      assert a + b == b;
    }
  }

  lemma {:induction false} KeepDigitsAppend(a: string, b: string)
    ensures KeepDigits(a + b) == KeepDigits(a) + KeepDigits(b)
    decreases |a|
  {
    if |a| > 0 {
      assert (a + b)[0] == a[0] && (a + b)[1..] == a[1..] + b;
      KeepDigitsAppend(a[1..], b);
      if IsDigit(a[0]) {
        var x, y := KeepDigits(a[1..]), KeepDigits(b);
        assert [a[0]] + (x + y) == ([a[0]] + x) + y;
      }
    } else {
      assert a + b == b;
    }
  }

  // ---------------------------------------------------------------------
  // String length

  /** The UTF-16 code units that encode one character: a surrogate pair
      for a character outside the Basic Multilingual Plane. */
  function CodeUnits(c: char): (n: nat)
    ensures 1 <= n <= 2
  {
    if c as int > 0xFFFF then 2 else 1
  }

  /** JavaScript's `s.length`: the number of UTF-16 code units, so a
      character outside the Basic Multilingual Plane counts twice. */
  function Utf16Length(s: string): (n: nat)
    ensures |s| <= n <= 2 * |s|
    ensures n == 0 <==> s == ""
    ensures |s| == 1 ==> n == CodeUnits(s[0])
    decreases |s|
  {
    if |s| == 0 then 0
    else CodeUnits(s[0]) + Utf16Length(s[1..])
  }

  /** The length of a concatenation is the sum of the lengths, so with the
      one-character case it fixes the count of every string. */
  lemma {:induction false} Utf16LengthAppend(a: string, b: string)
    ensures Utf16Length(a + b) == Utf16Length(a) + Utf16Length(b)
    decreases |a|
  {
    if |a| > 0 {
      assert (a + b)[0] == a[0] && (a + b)[1..] == a[1..] + b;
      Utf16LengthAppend(a[1..], b);
    } else {
      assert a + b == b;
    }
  }

  /** A string with no character outside the Basic Multilingual Plane has
      one code unit per character. */
  lemma {:induction false} Utf16LengthOfBmp(s: string)
    requires forall i | 0 <= i < |s| :: s[i] as int <= 0xFFFF
    ensures Utf16Length(s) == |s|
    decreases |s|
  {
    if |s| > 0 {
      Utf16LengthOfBmp(s[1..]);
    }
  }

}
