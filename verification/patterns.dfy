/** The regular expressions the storefront's form validators test against,
    each as a Dafny predicate. A ghost predicate gives the language the
    regular expression denotes; where the compiled predicate is phrased
    differently, a lemma shows the two agree. */
module Patterns {
  import opened Text

  // ---------------------------------------------------------------------
  // /\S+@\S+\.\S+/  (unanchored: `test` succeeds on any matching substring)

  /** `w` splits at `a` and `d` into the language of `\S+@\S+\.\S+`:
      a non-empty run of non-whitespace, `@`, a non-empty run of
      non-whitespace, `.`, a non-empty run of non-whitespace. The runs may
      themselves contain `@` and `.`. */
  ghost predicate EmailSplit(w: string, a: int, d: int) {
    && 0 < a && a + 1 < d && d + 1 < |w|
    && w[a] == '@' && w[d] == '.'
    && NoWhitespace(w[..a])
    && NoWhitespace(w[a + 1..d])
    && NoWhitespace(w[d + 1..])
  }

  ghost predicate InEmailLanguage(w: string) {
    exists a, d :: EmailSplit(w, a, d)
  }

  /** `/\S+@\S+\.\S+/.test(s)`: the pattern has no anchors, so it holds when
      some substring of `s` is in the language. */
  ghost predicate EmailPatternMatches(s: string) {
    exists i, j | 0 <= i <= j <= |s| :: InEmailLanguage(s[i..j])
  }

  /** An `@` at `a` with a non-whitespace character before it, followed by
      a non-empty whitespace-free run that ends just before a `.` at `d`,
      which has a non-whitespace character after it. */
  predicate EmailShapeAt(s: string, a: int, d: int) {
    && 0 < a && a + 1 < d && d + 1 < |s|
    && s[a] == '@' && s[d] == '.'
    && !IsWhitespace(s[a - 1])
    && NoWhitespace(s[a + 1..d])
    && !IsWhitespace(s[d + 1])
  }

  /** The check as the validators compute it. */
  predicate ContainsEmailShape(s: string) {
    exists a, d | 0 <= a < |s| && 0 <= d < |s| :: EmailShapeAt(s, a, d)
  }

  /** An `@`/`.` pair in the compiled check's shape yields a matching
      substring: the `@`'s left neighbour up to the `.`'s right neighbour. */
  lemma ShapeGivesMatch(s: string, a: int, d: int)
    requires EmailShapeAt(s, a, d)
    ensures EmailPatternMatches(s)
  {
    var w := s[a - 1..d + 2];
    var a', d' := 1, d - a + 1;
    assert NoWhitespace(w[..a']) by {
      assert w[..a'] == [s[a - 1]];
    }
    assert NoWhitespace(w[a' + 1..d']) by {
      var m, m' := w[a' + 1..d'], s[a + 1..d];
      forall k | 0 <= k < |m| ensures !IsWhitespace(m[k]) {
        assert m[k] == m'[k];
      }
    }
    assert NoWhitespace(w[d' + 1..]) by {
      assert w[d' + 1..] == [s[d + 1]];
    }
    assert EmailSplit(w, a', d');
  }

  /** A matching substring contains an `@`/`.` pair in the compiled
      check's shape. */
  lemma MatchGivesShape(s: string, i: int, j: int, a: int, d: int)
    requires 0 <= i <= j <= |s|
    requires EmailSplit(s[i..j], a, d)
    ensures ContainsEmailShape(s)
  {
    var w := s[i..j];
    assert s[i + a - 1] == w[..a][a - 1];
    assert s[i + d + 1] == w[d + 1..][0];
    var m, m' := s[i + a + 1..i + d], w[a + 1..d];
    forall k | 0 <= k < |m| ensures !IsWhitespace(m[k]) {
      assert m[k] == m'[k];
    }
    assert EmailShapeAt(s, i + a, i + d);
  }

  /** The compiled check agrees with the regular expression on every string. */
  lemma EmailShapeIsPatternMatch(s: string)
    ensures ContainsEmailShape(s) <==> EmailPatternMatches(s)
    ensures EmailPatternMatches(s) ==> !IsBlank(s)
  {
    if ContainsEmailShape(s) {
      var a, d :| EmailShapeAt(s, a, d);
      ShapeGivesMatch(s, a, d);
      assert !IsWhitespace(s[a]);
    }
    if EmailPatternMatches(s) {
      var i, j :| 0 <= i <= j <= |s| && InEmailLanguage(s[i..j]);
      var a, d :| EmailSplit(s[i..j], a, d);
      MatchGivesShape(s, i, j, a, d);
    }
  }

  // ---------------------------------------------------------------------
  // /^\d{5}(-\d{4})?$/

  /** A US ZIP code: five digits, optionally `-` and four more digits. */
  predicate ZipPattern(s: string) {
    || (|s| == 5 && AllDigits(s))
    || (|s| == 10 && AllDigits(s[..5]) && s[5] == '-' && AllDigits(s[6..]))
  }

  // ---------------------------------------------------------------------
  // /^(0[1-9]|1[0-2])\/\d{2}$/

  predicate ExpiryPattern(s: string) {
    && |s| == 5
    && ((s[0] == '0' && '1' <= s[1] <= '9') || (s[0] == '1' && '0' <= s[1] <= '2'))
    && s[2] == '/'
    && IsDigit(s[3]) && IsDigit(s[4])
  }

  /** `MM/YY` read as numbers: two digits for a month from 1 to 12, a slash,
      and two digits for the year. */
  ghost predicate IsMonthSlashYear(s: string) {
    && |s| == 5
    && IsDigit(s[0]) && IsDigit(s[1])
    && 1 <= 10 * DigitValue(s[0]) + DigitValue(s[1]) <= 12
    && s[2] == '/'
    && IsDigit(s[3]) && IsDigit(s[4])
  }

  lemma ExpiryIsMonthSlashYear(s: string)
    ensures ExpiryPattern(s) <==> IsMonthSlashYear(s)
  {
  }

  // ---------------------------------------------------------------------
  // /^\d{3,4}$/

  predicate CvvPattern(s: string) {
    (|s| == 3 || |s| == 4) && AllDigits(s)
  }

  // ---------------------------------------------------------------------
  // /^\d{4}\s?\d{4}\s?\d{4}\s?\d{4}$/

  /** `\d{4}(\s?\d{4}){n-1}`, anchored at both ends: `n` groups of four
      digits, each pair of groups separated by at most one whitespace
      character. */
  predicate DigitGroups(w: string, n: nat)
    requires n >= 1
    decreases n
  {
    && |w| >= 4
    && AllDigits(w[..4])
    && if n == 1 then |w| == 4
       else
         || DigitGroups(w[4..], n - 1)
         || (|w| > 4 && IsWhitespace(w[4]) && DigitGroups(w[5..], n - 1))
  }

  /** The card-number regular expression: four groups of four digits. */
  predicate CardPattern(w: string) {
    DigitGroups(w, 4)
  }

  /** On a string without whitespace the optional separators never match,
      so `n` groups are exactly `4 * n` digits. */
  lemma {:induction false} DigitGroupsWithoutWhitespace(w: string, n: nat)
    requires n >= 1
    requires NoWhitespace(w)
    ensures DigitGroups(w, n) <==> |w| == 4 * n && AllDigits(w)
    decreases n
  {
    if n > 1 && |w| >= 4 {
      DigitGroupsWithoutWhitespace(w[4..], n - 1);
      if |w| > 4 {
        assert !IsWhitespace(w[4]);
      }
      if AllDigits(w[..4]) && AllDigits(w[4..]) {
        assert w == w[..4] + w[4..];
      }
    }
  }

  /** The payment validator removes all whitespace before it tests the
      card number, so the test accepts exactly sixteen ASCII digits. */
  lemma CardPatternAfterStrip(s: string)
    ensures CardPattern(StripWhitespace(s))
        <==> |StripWhitespace(s)| == 16 && AllDigits(StripWhitespace(s))
  {
    DigitGroupsWithoutWhitespace(StripWhitespace(s), 4);
  }

}
