/**
 * The name rule of `Animal`: `name.matches(Regex(".*\\d+.*."))`, a FULL match of the whole name
 * against the pattern `.*\d+.*.` under the JVM's default regex flags. There `\d` is an ASCII digit
 * and `.` is any character except a line terminator.
 */
module DigitPattern {
  predicate IsDigit(c: char) {
    '0' <= c <= '9'
  }

  /** The characters that the JVM's `.` does not match without DOTALL (and without UNIX_LINES). */
  predicate IsLineTerminator(c: char) {
    c == '\n' || c == '\r' || c == '\U{0085}' || c == '\U{2028}' || c == '\U{2029}'
  }

  predicate AllDot(t: string) {
    forall k :: 0 <= k < |t| ==> !IsLineTerminator(t[k])
  }

  predicate AllDigits(t: string) {
    forall k :: 0 <= k < |t| ==> IsDigit(t[k])
  }

  /**
   * The regex's meaning, read off the pattern: `s` splits as `.*` = s[..i], `\d+` = s[i..j] (non-empty),
   * `.*` = s[j..|s|-1] and a final `.` = s[|s|-1].
   */
  ghost predicate FullMatch(s: string)
    ensures FullMatch(s) ==> |s| >= 2
  {
    exists i, j :: 0 <= i < j < |s| && AllDot(s[..i]) && AllDigits(s[i..j])
                   && AllDot(s[j..|s| - 1]) && !IsLineTerminator(s[|s| - 1])
  }

  /** Some digit of `s` has at least one more character after it. */
  predicate DigitBeforeLast(s: string)
    ensures DigitBeforeLast(s) <==> exists i :: 0 <= i < |s| - 1 && IsDigit(s[i])
  {
    |s| >= 2 && (IsDigit(s[0]) || DigitBeforeLast(s[1..]))
  }

  /** The match as a program decides it, without the regex engine: no line terminator, and a digit before the last character. */
  predicate Matches(s: string)
    ensures Matches(s) <==> AllDot(s) && exists i :: 0 <= i < |s| - 1 && IsDigit(s[i])
  {
    AllDot(s) && DigitBeforeLast(s)
  }

  /** The decision procedure agrees with the regex on every string. */
  lemma MatchesIffFullMatch(s: string)
    ensures Matches(s) <==> FullMatch(s)
  {
    if Matches(s) {
      var i :| 0 <= i < |s| - 1 && IsDigit(s[i]);
      assert AllDot(s[..i]) && AllDigits(s[i..i + 1]) && AllDot(s[i + 1..|s| - 1]);
    }
    if FullMatch(s) {
      var i, j :| 0 <= i < j < |s| && AllDot(s[..i]) && AllDigits(s[i..j])
                  && AllDot(s[j..|s| - 1]) && !IsLineTerminator(s[|s| - 1]);
      assert IsDigit(s[i..j][0]);
      forall k | 0 <= k < |s| ensures !IsLineTerminator(s[k]) {
        if k < i {
          assert s[k] == s[..i][k];
        } else if k < j {
          assert s[k] == s[i..j][k - i];
        } else if k < |s| - 1 {
          assert s[k] == s[j..|s| - 1][k - j];
        }
      }
    }
  }

  /**
   * For a name without line terminators, the rule rejects exactly the names in which a digit is
   * followed by at least one more character; a digit in last position goes through.
   */
  lemma RejectsIffDigitNotLast(s: string)
    requires AllDot(s)
    ensures FullMatch(s) <==> exists i :: 0 <= i < |s| - 1 && IsDigit(s[i])
  {
    MatchesIffFullMatch(s);
  }

  /** A name with a line terminator never matches, whatever digits it holds. */
  lemma LineTerminatorNeverMatches(s: string, k: int)
    requires 0 <= k < |s| && IsLineTerminator(s[k])
    ensures !FullMatch(s)
  {
    MatchesIffFullMatch(s);
  }

  /** Everything the rule rejects does contain a digit, but not the converse: "Rex9" contains one and is accepted. */
  lemma MatchOnlyWithDigit(s: string)
    ensures FullMatch(s) ==> exists i :: 0 <= i < |s| && IsDigit(s[i])
    ensures !FullMatch("Rex9") && IsDigit("Rex9"[3])
  {
    MatchesIffFullMatch(s);
    MatchesIffFullMatch("Rex9");
    assert !DigitBeforeLast("9");
  }

  /** Sample names: "Rex9", "9" and "Fido" are accepted; "R2D" and "99" are rejected; so is nothing with a line break. */
  lemma SampleNames()
    ensures !FullMatch("Rex9") && !FullMatch("9") && !FullMatch("Fido") && !FullMatch("Spot")
    ensures FullMatch("R2D") && FullMatch("99")
    ensures !FullMatch("R2\nD")
  {
    MatchesIffFullMatch("Rex9");
    MatchesIffFullMatch("9");
    MatchesIffFullMatch("Fido");
    MatchesIffFullMatch("Spot");
    MatchesIffFullMatch("R2D");
    MatchesIffFullMatch("99");
    MatchesIffFullMatch("R2\nD");
    assert !AllDot("R2\nD") by { assert IsLineTerminator("R2\nD"[2]); }
    assert DigitBeforeLast("R2D") by { assert IsDigit("R2D"[1]); }
    assert DigitBeforeLast("99") by { assert IsDigit("99"[0]); }
    assert !DigitBeforeLast("9");
  }
}
