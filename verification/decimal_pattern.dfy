/**
  The amount validator of the coin input widget: the regular expression
  `^[0-9]*[.,]?[0-9]*$`, i.e. a run of ASCII digits, at most one `.` or `,`,
  and another run of digits (either run, and the separator, may be empty).
*/
module Decimal {

  predicate IsDigit(c: char) { '0' <= c <= '9' }

  predicate IsSeparator(c: char) { c == '.' || c == ',' }

  predicate AllDigits(s: string) {
    forall i | 0 <= i < |s| :: IsDigit(s[i])
  }

  /** Membership in the language of the pattern, following its shape:
      digits, or digits + one separator + digits. */
  predicate DecimalPattern(s: string) {
    AllDigits(s) ||
    exists i | 0 <= i < |s| :: IsSeparator(s[i]) && AllDigits(s[..i]) && AllDigits(s[i + 1..])
  }

  // ---------------------------------------------------------------------
  // An independent description: only digits and separators, at most one
  // separator.

  predicate DecimalChars(s: string) {
    forall i | 0 <= i < |s| :: IsDigit(s[i]) || IsSeparator(s[i])
  }

  function SeparatorCount(s: string): nat {
    if s == [] then 0
    else (if IsSeparator(s[0]) then 1 else 0) + SeparatorCount(s[1..])
  }

  lemma {:induction false} SeparatorCountAppend(a: string, b: string)
    ensures SeparatorCount(a + b) == SeparatorCount(a) + SeparatorCount(b)
  {
    if a == [] {
      assert a + b == b;
    } else {
      assert (a + b)[1..] == a[1..] + b;
      SeparatorCountAppend(a[1..], b);
    }
  }

  lemma {:induction false} AllDigitsHasNoSeparator(s: string)
    requires AllDigits(s)
    ensures SeparatorCount(s) == 0
  {
    if s != [] {
      assert IsDigit(s[0]);
      AllDigitsHasNoSeparator(s[1..]);
    }
  }

  lemma {:induction false} NoSeparatorIsAllDigits(s: string)
    requires DecimalChars(s) && SeparatorCount(s) == 0
    ensures AllDigits(s)
  {
    if s != [] {
      NoSeparatorIsAllDigits(s[1..]);
      forall i | 0 <= i < |s| ensures IsDigit(s[i]) {
        if i > 0 { assert s[i] == s[1..][i - 1]; }
      }
    }
  }

  /** The first separator of a string made of digits and separators. */
  lemma {:induction false} FirstSeparator(s: string) returns (i: nat)
    requires DecimalChars(s) && SeparatorCount(s) > 0
    ensures i < |s| && IsSeparator(s[i]) && AllDigits(s[..i])
  {
    if IsSeparator(s[0]) {
      i := 0;
    } else {
      var j := FirstSeparator(s[1..]);
      i := j + 1;
      assert s[..i] == [s[0]] + s[1..][..j];
    }
  }

  /** Counting across the first separator, when only digits precede it. */
  lemma SplitAtSeparator(s: string, i: nat)
    requires i < |s| && IsSeparator(s[i]) && AllDigits(s[..i])
    ensures SeparatorCount(s) == 1 + SeparatorCount(s[i + 1..])
  {
    assert s == s[..i] + [s[i]] + s[i + 1..];
    SeparatorCountAppend(s[..i] + [s[i]], s[i + 1..]);
    SeparatorCountAppend(s[..i], [s[i]]);
    AllDigitsHasNoSeparator(s[..i]);
    assert SeparatorCount([s[i]]) == 1 by { assert [s[i]][1..] == []; }
  }

  lemma PatternImpliesAtMostOneSeparator(s: string)
    requires DecimalPattern(s)
    ensures DecimalChars(s) && SeparatorCount(s) <= 1
  {
    if AllDigits(s) {
      AllDigitsHasNoSeparator(s);
    } else {
      var i :| 0 <= i < |s| && IsSeparator(s[i]) && AllDigits(s[..i]) && AllDigits(s[i + 1..]);
      SplitAtSeparator(s, i);
      AllDigitsHasNoSeparator(s[i + 1..]);
      forall k | 0 <= k < |s| ensures IsDigit(s[k]) || IsSeparator(s[k]) {
        if k < i { assert s[k] == s[..i][k]; }
        else if k > i { assert s[k] == s[i + 1..][k - i - 1]; }
      }
    }
  }

  lemma AtMostOneSeparatorImpliesPattern(s: string)
    requires DecimalChars(s) && SeparatorCount(s) <= 1
    ensures DecimalPattern(s)
  {
    if SeparatorCount(s) == 0 {
      NoSeparatorIsAllDigits(s);
    } else {
      var i := FirstSeparator(s);
      SplitAtSeparator(s, i);
      var rest := s[i + 1..];
      forall k | 0 <= k < |rest| ensures IsDigit(rest[k]) || IsSeparator(rest[k]) {
        assert rest[k] == s[i + 1 + k];
      }
      NoSeparatorIsAllDigits(rest);
    }
  }

  /** The pattern accepts exactly the strings of digits and separators that
      hold at most one separator. */
  lemma PatternIffAtMostOneSeparator(s: string)
    ensures DecimalPattern(s) <==> DecimalChars(s) && SeparatorCount(s) <= 1
  {
    if DecimalPattern(s) {
      PatternImpliesAtMostOneSeparator(s);
    }
    if DecimalChars(s) && SeparatorCount(s) <= 1 {
      AtMostOneSeparatorImpliesPattern(s);
    }
  }

  // ---------------------------------------------------------------------
  // Consequences for keystrokes.

  /** Deleting from the end of an accepted amount keeps it accepted. */
  lemma PrefixClosed(s: string, k: nat)
    requires DecimalPattern(s) && k <= |s|
    ensures DecimalPattern(s[..k])
  {
    PatternIffAtMostOneSeparator(s);
    assert s == s[..k] + s[k..];
    SeparatorCountAppend(s[..k], s[k..]);
    forall j | 0 <= j < k ensures IsDigit(s[..k][j]) || IsSeparator(s[..k][j]) {
      assert s[..k][j] == s[j];
    }
    PatternIffAtMostOneSeparator(s[..k]);
  }

  /** Appending a digit to an accepted amount is always accepted. */
  lemma AppendDigitAccepted(s: string, d: char)
    requires DecimalPattern(s) && IsDigit(d)
    ensures DecimalPattern(s + [d])
  {
    PatternIffAtMostOneSeparator(s);
    SeparatorCountAppend(s, [d]);
    assert SeparatorCount([d]) == 0 by { assert [d][1..] == []; }
    forall j | 0 <= j < |s + [d]| ensures IsDigit((s + [d])[j]) || IsSeparator((s + [d])[j]) {
      if j < |s| { assert (s + [d])[j] == s[j]; }
    }
    PatternIffAtMostOneSeparator(s + [d]);
  }

  /** Appending a separator is accepted exactly when the amount so far is all
      digits, so a second separator is refused. */
  lemma AppendSeparatorAccepted(s: string, c: char)
    requires IsSeparator(c)
    ensures DecimalPattern(s + [c]) <==> AllDigits(s)
  {
    PatternIffAtMostOneSeparator(s + [c]);
    SeparatorCountAppend(s, [c]);
    assert SeparatorCount([c]) == 1 by { assert [c][1..] == []; }
    if AllDigits(s) {
      AllDigitsHasNoSeparator(s);
      forall j | 0 <= j < |s + [c]| ensures IsDigit((s + [c])[j]) || IsSeparator((s + [c])[j]) {
        if j < |s| { assert (s + [c])[j] == s[j]; }
      }
    } else if DecimalPattern(s + [c]) {
      forall j | 0 <= j < |s| ensures IsDigit(s[j]) || IsSeparator(s[j]) {
        assert (s + [c])[j] == s[j];
      }
      NoSeparatorIsAllDigits(s);
    }
  }

  /** A character other than a digit or separator (a sign, a letter, a space)
      anywhere in the input makes the pattern fail. */
  lemma RejectsForeignChar(s: string, i: nat)
    requires i < |s| && !IsDigit(s[i]) && !IsSeparator(s[i])
    ensures !DecimalPattern(s)
  {
    PatternIffAtMostOneSeparator(s);
  }

  /** Two separators anywhere in the input make the pattern fail. */
  lemma RejectsSecondSeparator(s: string, i: nat, j: nat)
    requires i < j < |s| && IsSeparator(s[i]) && IsSeparator(s[j])
    ensures !DecimalPattern(s)
  {
    PatternIffAtMostOneSeparator(s);
    assert s == s[..j] + s[j..];
    SeparatorCountAppend(s[..j], s[j..]);
    assert s[..j] == s[..i] + s[i..j];
    SeparatorCountAppend(s[..i], s[i..j]);
    assert s[i..j][0] == s[i];
    assert s[j..][0] == s[j];
  }

  lemma AcceptedExamples()
    ensures DecimalPattern("") && DecimalPattern(".") && DecimalPattern(",")
    ensures DecimalPattern("0") && DecimalPattern("12.50") && DecimalPattern(",5") && DecimalPattern("7.")
  {
    assert AllDigits("");
    assert AllDigits("0");
    assert "."[0] == '.' && AllDigits("."[..0]) && AllDigits("."[1..]);
    assert ","[0] == ',' && AllDigits(","[..0]) && AllDigits(","[1..]);
    assert "12.50"[2] == '.' && "12.50"[..2] == "12" && "12.50"[3..] == "50";
    assert ",5"[0] == ',' && ",5"[..0] == "" && ",5"[1..] == "5";
    assert "7."[1] == '.' && "7."[..1] == "7" && "7."[2..] == "";
  }

  lemma RejectedExamples()
    ensures !DecimalPattern("-1") && !DecimalPattern("+1") && !DecimalPattern("1e5")
    ensures !DecimalPattern(" 1") && !DecimalPattern("1.2.3") && !DecimalPattern("1.,")
  {
    RejectsForeignChar("-1", 0);
    RejectsForeignChar("+1", 0);
    RejectsForeignChar("1e5", 1);
    RejectsForeignChar(" 1", 0);
    RejectsSecondSeparator("1.2.3", 1, 3);
    RejectsSecondSeparator("1.,", 1, 2);
  }
}
