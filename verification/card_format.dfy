/** `formatCardNumber`: the display transform applied to every keystroke in
    the card-number field. It keeps the digits, takes the first match of
    `/\d{4,16}/g` and regroups it in fours separated by single spaces. */
module CardFormat {
  import opened Wrappers
  import opened Text

  function Min(a: int, b: int): int {
    if a <= b then a else b
  }

  /** Number of consecutive ASCII digits in `v` starting at `i`. */
  function DigitRunLength(v: string, i: nat): (n: nat)
    requires i <= |v|
    ensures i + n <= |v|
    ensures AllDigits(v[i..i + n])
    ensures i + n < |v| ==> !IsDigit(v[i + n])
    decreases |v| - i
  {
    if i == |v| || !IsDigit(v[i]) then 0
    else
      var n := DigitRunLength(v, i + 1);
      assert v[i..i + 1 + n] == [v[i]] + v[i + 1..i + 1 + n];
      1 + n
  }

  /** The first match of the global regular expression `/\d{4,16}/g` at or
      after position `i`: the leftmost position where four digits start,
      extended greedily to at most sixteen. */
  function FirstDigitMatchFrom(v: string, i: nat): (m: Option<string>)
    requires i <= |v|
    ensures m.Some? ==> 4 <= |m.value| <= 16 && AllDigits(m.value)
    decreases |v| - i
  {
    if i + 4 > |v| then None
    else
      var n := Min(16, DigitRunLength(v, i));
      if n >= 4 then
        assert v[i..i + n] == v[i..i + DigitRunLength(v, i)][..n];
        Some(v[i..i + n])
      else FirstDigitMatchFrom(v, i + 1)
  }

  /** `matches && matches[0] || ''` */
  function FirstDigitMatch(v: string): string {
    match FirstDigitMatchFrom(v, 0)
    case Some(m) => m
    case None => ""
  }

  /** The `for` loop pushing `match.substring(i, i + 4)` for i = 0, 4, 8, …:
      consecutive pieces of four, the last one possibly shorter. */
  function Chunks(m: string): (parts: seq<string>)
    ensures |parts| == (|m| + 3) / 4
    ensures forall k | 0 <= k < |parts| :: 1 <= |parts[k]| <= 4
    decreases |m|
  {
    if |m| == 0 then []
    else
      var n := Min(4, |m|);
      [m[..n]] + Chunks(m[n..])
  }

  /** `parts.join(' ')` */
  function Join(parts: seq<string>): string
    decreases |parts|
  {
    if |parts| == 0 then ""
    else if |parts| == 1 then parts[0]
    else parts[0] + " " + Join(parts[1..])
  }

  /** The card-number display transform. */
  function FormatCardNumber(value: string): (r: string)
    ensures AllDigits(value) && |value| <= 3 ==> r == value
  {
    var v := KeepDigits(StripWhitespace(value));
    var parts := Chunks(FirstDigitMatch(v));
    if |parts| > 0 then Join(parts) else v
  }

  // ---------------------------------------------------------------------
  // Properties

  /** The digits the transform keeps: the first sixteen digits of the input. */
  function KeptDigits(value: string): (d: string)
    ensures AllDigits(d) && |d| <= 16
  {
    var all := KeepDigits(value);
    all[..Min(16, |all|)]
  }

  /** On a digit string the first match starts at position 0. */
  lemma FirstMatchOfDigits(v: string)
    requires AllDigits(v)
    ensures FirstDigitMatch(v) == if |v| >= 4 then v[..Min(16, |v|)] else ""
  {
    if |v| >= 4 {
      assert DigitRunLength(v, 0) == |v|;
    }
  }

  lemma SingleChunk(m: string)
    requires 1 <= |m| <= 4
    ensures Chunks(m) == [m]
    ensures Join(Chunks(m)) == m
  {
    assert m[..|m|] == m;
    assert Chunks(m[|m|..]) == [];
  }

  /** Joined chunks of a digit string, read back without spaces, give the
      digit string. */
  lemma {:induction false} StripJoinedChunks(m: string)
    requires AllDigits(m)
    ensures StripWhitespace(Join(Chunks(m))) == m
    decreases |m|
  {
    if |m| > 4 {
      var rest := m[4..];
      assert Chunks(m) == [m[..4]] + Chunks(rest);
      assert Chunks(rest) != [];
      StripJoinedChunks(rest);
      StripWhitespaceAppend(m[..4] + " ", Join(Chunks(rest)));
      StripWhitespaceAppend(m[..4], " ");
      assert StripWhitespace(" ") == "";
      assert StripWhitespace(m[..4]) == m[..4];
      assert m == m[..4] + rest;
    } else if |m| > 0 {
      SingleChunk(m);
    }
  }

  /** Four-digit groups joined by single spaces: one separator per
      group boundary. */
  lemma {:induction false} JoinedChunksLength(m: string)
    requires |m| >= 1
    ensures |Join(Chunks(m))| == |m| + (|m| - 1) / 4
    decreases |m|
  {
    if |m| > 4 {
      assert Chunks(m) == [m[..4]] + Chunks(m[4..]);
      JoinedChunksLength(m[4..]);
    } else {
      SingleChunk(m);
    }
  }

  /** With at least four digits the result is the first sixteen digits in
      groups of four; with fewer it is the digits alone. Either way it has
      at most 19 characters and, read back without spaces, gives exactly
      the digits it kept. */
  lemma FormatKeepsDigits(value: string)
    ensures var r := FormatCardNumber(value);
            && |r| <= 19
            && StripWhitespace(r) == KeptDigits(value)
            && (|KeepDigits(value)| >= 4 ==> r == Join(Chunks(KeptDigits(value))))
            && (|KeepDigits(value)| < 4 ==> r == KeepDigits(value))
  {
    var v := KeepDigits(StripWhitespace(value));
    KeepDigitsIgnoresWhitespace(value);
    assert v == KeepDigits(value);
    FirstMatchOfDigits(v);
    var d := KeptDigits(value);
    if |v| >= 4 {
      StripJoinedChunks(d);
      JoinedChunksLength(d);
    } else {
      assert d == v;
    }
  }

  /** Formatting an already formatted value changes nothing, so the field
      is stable under re-rendering. */
  lemma FormatIdempotent(value: string)
    ensures FormatCardNumber(FormatCardNumber(value)) == FormatCardNumber(value)
  {
    var r := FormatCardNumber(value);
    FormatKeepsDigits(value);
    FormatKeepsDigits(r);
    var d := KeptDigits(value);
    KeepDigitsIgnoresWhitespace(r);
    assert KeepDigits(r) == d;
    assert KeptDigits(r) == d;
  }

  /** Chunks after the first four are joined behind a single space. */
  lemma JoinChunksStep(m: string)
    requires |m| > 4
    ensures Join(Chunks(m)) == m[..4] + " " + Join(Chunks(m[4..]))
  {
    var parts := Chunks(m);
    assert parts == [m[..4]] + Chunks(m[4..]);
    assert parts[1..] == Chunks(m[4..]);
  }

  lemma JoinSixteen(d: string)
    requires |d| == 16
    ensures Join(Chunks(d)) == d[..4] + " " + d[4..8] + " " + d[8..12] + " " + d[12..]
  {
    var j3 := Join(Chunks(d[8..]));
    var j2 := Join(Chunks(d[4..]));
    assert j3 == d[8..12] + " " + d[12..] by {
      assert d[8..][..4] == d[8..12] && d[8..][4..] == d[12..];
      JoinChunksStep(d[8..]);
      SingleChunk(d[12..]);
    }
    assert j2 == d[4..8] + " " + j3 by {
      assert d[4..][..4] == d[4..8] && d[4..][4..] == d[8..];
      JoinChunksStep(d[4..]);
    }
    JoinChunksStep(d);
  }

  /** Sixteen digits typed in a row come back as four groups of four. */
  lemma FormatsSixteenDigits(d: string)
    requires |d| == 16 && AllDigits(d)
    ensures FormatCardNumber(d) == d[..4] + " " + d[4..8] + " " + d[8..12] + " " + d[12..]
  {
    FormatKeepsDigits(d);
    assert KeptDigits(d) == d;
    JoinSixteen(d);
  }

  /** Fewer than four digits do not match `\d{4,16}`: the digits come back
      ungrouped. */
  lemma FormatsShortInput()
    ensures FormatCardNumber("abc123") == "123"
  {
    FormatKeepsDigits("abc123");
    assert KeepDigits("abc123") == "123";
  }

}
