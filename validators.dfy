/** The input checks shared by the signup, login and contact forms: blank
    text (`!s.trim()`) and the two regular expressions `^\S+@\S+\.\S+$` and
    `^[0-9]{12}$`, written out as string predicates. */
module Validators {
  import opened JsString

  /** `!s.trim()`: the text is empty once trimmed. */
  predicate IsBlank(s: string) {
    Trim(s) == []
  }

  /** Blank text is exactly text made only of whitespace. */
  lemma BlankIff(s: string)
    ensures IsBlank(s) <==> AllSpace(s)
  {
    TrimEmptyIff(s);
  }

  // ---------------------------------------------------------------------
  // ^\S+@\S+\.\S+$

  /** The '@' at `i` and the '.' at `j` cut `s` into the three non-empty,
      whitespace-free runs that the pattern `^\S+@\S+\.\S+$` matches. */
  ghost predicate EmailSplit(s: string, i: int, j: int) {
    0 < i && i + 1 < j && j + 1 < |s| && s[i] == '@' && s[j] == '.'
    && NoSpace(s[..i]) && NoSpace(s[i + 1..j]) && NoSpace(s[j + 1..])
  }

  /** What the regular expression accepts: some way of cutting `s`. */
  ghost predicate MatchesEmailPattern(s: string) {
    exists i, j :: EmailSplit(s, i, j)
  }

  /** The first index at or after `from` holding `c`, or `|s|` if none. */
  function IndexFrom(s: string, c: char, from: nat): (r: nat)
    requires from <= |s|
    ensures from <= r <= |s|
    ensures r < |s| ==> s[r] == c
    ensures forall k :: from <= k < r ==> s[k] != c
    decreases |s| - from
  {
    if from == |s| || s[from] == c then from else IndexFrom(s, c, from + 1)
  }

  /** The last index below `upTo` holding `c`, or -1 if none. */
  function LastIndexBefore(s: string, c: char, upTo: nat): (r: int)
    requires upTo <= |s|
    ensures -1 <= r < upTo
    ensures r >= 0 ==> s[r] == c
    ensures forall k :: r < k < upTo ==> s[k] != c
  {
    if upTo == 0 then -1
    else if s[upTo - 1] == c then upTo - 1
    else LastIndexBefore(s, c, upTo - 1)
  }

  /** `/^\S+@\S+\.\S+$/.test(s)`, decided by one scan: no whitespace
      anywhere, and the first '@' after position 0 lies at least two places
      before the last '.' that is not the final character. */
  function IsEmail(s: string): (r: bool)
    ensures r <==> MatchesEmailPattern(s)
  {
    EmailScanSound(s);
    EmailScanComplete(s);
    NoSpace(s) && |s| >= 5
    && IndexFrom(s, '@', 1) + 1 < LastIndexBefore(s, '.', |s| - 1)
  }

  lemma EmailScanSound(s: string)
    ensures NoSpace(s) && |s| >= 5 && IndexFrom(s, '@', 1) + 1 < LastIndexBefore(s, '.', |s| - 1)
            ==> MatchesEmailPattern(s)
  {
    if !(NoSpace(s) && |s| >= 5 && IndexFrom(s, '@', 1) + 1 < LastIndexBefore(s, '.', |s| - 1)) {
      return;
    }
    var i := IndexFrom(s, '@', 1);
    var j := LastIndexBefore(s, '.', |s| - 1);
    assert NoSpace(s[..i]) && NoSpace(s[i + 1..j]) && NoSpace(s[j + 1..]) by {
      forall k | 0 <= k < i ensures s[..i][k] == s[k] { }
      forall k | i < k < j ensures s[i + 1..j][k - i - 1] == s[k] { }
      forall k | j < k < |s| ensures s[j + 1..][k - j - 1] == s[k] { }
    }
    assert EmailSplit(s, i, j);
  }

  lemma EmailScanComplete(s: string)
    ensures MatchesEmailPattern(s)
            ==> NoSpace(s) && |s| >= 5 && IndexFrom(s, '@', 1) + 1 < LastIndexBefore(s, '.', |s| - 1)
  {
    if !MatchesEmailPattern(s) {
      return;
    }
    var i, j :| EmailSplit(s, i, j);
    forall k | 0 <= k < |s| ensures !IsSpace(s[k]) {
      if k < i {
        assert s[..i][k] == s[k];
      } else if i < k < j {
        assert s[i + 1..j][k - i - 1] == s[k];
      } else if j < k {
        assert s[j + 1..][k - j - 1] == s[k];
      }
    }
    assert IndexFrom(s, '@', 1) <= i;
    assert j <= LastIndexBefore(s, '.', |s| - 1);
  }

  /** The pattern accepts an address of three non-empty runs and rejects
      one without a dot after the '@', one too short to hold three runs, and
      one with a space. */
  lemma EmailPatternExamples()
    ensures MatchesEmailPattern("a@b.c")
    ensures !MatchesEmailPattern("a@bc")
    ensures !MatchesEmailPattern("a@.c")
    ensures !MatchesEmailPattern("a @b.c")
  {
    assert EmailSplit("a@b.c", 1, 3) by {
      assert "a@b.c"[..1] == "a" && "a@b.c"[2..3] == "b" && "a@b.c"[4..] == "c";
    }
    EmailScanComplete("a@bc");
    EmailScanComplete("a@.c");
    EmailScanComplete("a @b.c");
    assert IsSpace("a @b.c"[1]);
  }

  /** An address the pattern accepts is never blank. */
  lemma EmailNotBlank(s: string)
    ensures MatchesEmailPattern(s) ==> !AllSpace(s)
  {
    if MatchesEmailPattern(s) {
      var i, j :| EmailSplit(s, i, j);
      assert s[..i][0] == s[0];
    }
  }

  // ---------------------------------------------------------------------
  // ^[0-9]{12}$

  predicate IsDigit(c: char) {
    '0' <= c <= '9'
  }

  /** `/^[0-9]{12}$/.test(s)`: exactly twelve decimal digits. */
  predicate IsTwelveDigits(s: string) {
    |s| == 12 && forall k :: 0 <= k < |s| ==> IsDigit(s[k])
  }

  /** Twelve digits pass; eleven digits, or a letter among twelve, do not. */
  lemma AadharExamples()
    ensures IsTwelveDigits("123456789012")
    ensures !IsTwelveDigits("12345678901")
    ensures !IsTwelveDigits("12345678901a")
  {
    assert !IsDigit("12345678901a"[11]);
  }
}
