/** The one regular expression both validation scripts use for e-mail addresses,
      ^[a-zA-Z0-9._%+-]+@[a-zA-Z0-9.-]+\.[a-zA-Z]{2,}$
    applied with Python's `re.match`, written as a hand-coded recogniser and proved
    equal to a declarative reading of the pattern. */
module EmailPattern {
  import opened PyRuntime

  predicate IsAsciiLetter(c: char) { 'a' <= c <= 'z' || 'A' <= c <= 'Z' }

  /** The class `[a-zA-Z0-9._%+-]` of the local part. */
  predicate IsLocalChar(c: char)
  {
    IsAsciiLetter(c) || IsDigit(c) || c == '.' || c == '_' || c == '%' || c == '+' || c == '-'
  }

  /** The class `[a-zA-Z0-9.-]` of the domain part. */
  predicate IsDomainChar(c: char)
  {
    IsAsciiLetter(c) || IsDigit(c) || c == '.' || c == '-'
  }

  predicate AllLocal(s: string) { forall i :: 0 <= i < |s| ==> IsLocalChar(s[i]) }

  predicate AllDomain(s: string) { forall i :: 0 <= i < |s| ==> IsDomainChar(s[i]) }

  predicate AllLetters(s: string) { forall i :: 0 <= i < |s| ==> IsAsciiLetter(s[i]) }

  /** `s` is the whole pattern matched with its `@` at `k` and its escaped `.` at `j`:
      local part s[..k] (at least one), domain s[k+1..j] (at least one), top-level
      label s[j+1..] (at least two letters). */
  ghost predicate MatchesAt(s: string, k: int, j: int)
  {
    && 1 <= k && k + 2 <= j && j + 3 <= |s|
    && AllLocal(s[..k]) && s[k] == '@'
    && AllDomain(s[k + 1..j]) && s[j] == '.'
    && AllLetters(s[j + 1..])
  }

  /** The regular expression, anchored at both ends, matches all of `s`. */
  ghost predicate FullMatch(s: string)
  {
    exists k, j :: MatchesAt(s, k, j)
  }

  /** Index of the first `@` in `s`, or |s| when there is none. */
  function FirstAt(s: string): (k: nat)
    ensures k <= |s|
    ensures k < |s| ==> s[k] == '@'
    ensures forall i :: 0 <= i < k ==> s[i] != '@'
  {
    if |s| == 0 || s[0] == '@' then 0 else 1 + FirstAt(s[1..])
  }

  /** Index of the last `.` in `d`, or -1 when there is none. */
  function LastDot(d: string): (j: int)
    ensures -1 <= j < |d|
    ensures j >= 0 ==> d[j] == '.'
    ensures forall i :: j < i < |d| ==> d[i] != '.'
  {
    if |d| == 0 then -1
    else if d[|d| - 1] == '.' then |d| - 1
    else LastDot(d[..|d| - 1])
  }

  /** Everything after the `@`: `[a-zA-Z0-9.-]+\.[a-zA-Z]{2,}`. The escaped dot can
      only be the last dot, because no dot may follow it. */
  predicate DomainShape(d: string)
  {
    var j := LastDot(d);
    1 <= j && j + 3 <= |d| && AllDomain(d[..j]) && AllLetters(d[j + 1..])
  }

  /** The recogniser: `@` is in neither character class, so the first `@` is the one. */
  predicate EmailShape(s: string)
  {
    var k := FirstAt(s);
    1 <= k < |s| && AllLocal(s[..k]) && DomainShape(s[k + 1..])
  }

  /** `bool(re.match(pattern, s))`: Python's `$` also matches just before a single
      final newline, so `s` may carry one trailing '\n'. */
  predicate PatternMatches(s: string)
  {
    EmailShape(s) || (|s| > 0 && s[|s| - 1] == '\n' && EmailShape(s[..|s| - 1]))
  }

  /** The recogniser accepts exactly the strings the anchored pattern matches. */
  lemma EmailShapeIsFullMatch(s: string)
    ensures EmailShape(s) <==> FullMatch(s)
  {
    if EmailShape(s) {
      ShapeGivesMatch(s);
    }
    if FullMatch(s) {
      var k, j :| MatchesAt(s, k, j);
      MatchGivesShape(s, k, j);
    }
  }

  lemma ShapeGivesMatch(s: string)
    requires EmailShape(s)
    ensures MatchesAt(s, FirstAt(s), FirstAt(s) + 1 + LastDot(s[FirstAt(s) + 1..]))
  {
    var k := FirstAt(s);
    var d := s[k + 1..];
    var j := LastDot(d);
    assert d[..j] == s[k + 1..k + 1 + j];
    assert d[j + 1..] == s[k + 1 + j + 1..];
  }

  lemma MatchGivesShape(s: string, k: int, j: int)
    requires MatchesAt(s, k, j)
    ensures EmailShape(s)
  {
    FirstAtOfMatch(s, k, j);
    var d := s[k + 1..];
    assert d[..j - k - 1] == s[k + 1..j];
    assert d[j - k..] == s[j + 1..];
    LastDotOfMatch(d, j - k - 1);
  }

  lemma FirstAtOfMatch(s: string, k: int, j: int)
    requires MatchesAt(s, k, j)
    ensures FirstAt(s) == k
  {
  }

  lemma LastDotOfMatch(d: string, j: int)
    requires 0 <= j < |d| && d[j] == '.'
    requires AllLetters(d[j + 1..])
    ensures LastDot(d) == j
  {
  }

  /** A string with no `@` in it is never accepted. */
  lemma NoAtSignNoMatch(s: string)
    requires forall i :: 0 <= i < |s| ==> s[i] != '@'
    ensures !PatternMatches(s)
  {
  }

  /** Neither the domain nor the top-level label can hold an `@`. */
  lemma DomainShapeHasNoAtSign(d: string)
    requires DomainShape(d)
    ensures forall m :: 0 <= m < |d| ==> d[m] != '@'
  {
    var j := LastDot(d);
    forall m | 0 <= m < |d|
      ensures d[m] != '@'
    {
      if m < j {
        assert d[m] == d[..j][m];
      } else if m > j {
        assert d[m] == d[j + 1..][m - j - 1];
      }
    }
  }

  /** Every `@` of a string the recogniser accepts is its first `@`. */
  lemma ShapeHasOneAtSign(t: string)
    requires EmailShape(t)
    ensures forall i :: 0 <= i < |t| && t[i] == '@' ==> i == FirstAt(t)
  {
    var k := FirstAt(t);
    var d := t[k + 1..];
    DomainShapeHasNoAtSign(d);
    forall i | k < i < |t|
      ensures t[i] != '@'
    {
      assert t[i] == d[i - k - 1];
    }
  }

  /** `k` is the position of the one and only `@` in `s`. */
  ghost predicate SoleAtSign(s: string, k: int)
  {
    0 <= k < |s| && s[k] == '@' && forall i :: 0 <= i < |s| && s[i] == '@' ==> i == k
  }

  /** An accepted string has exactly one `@` (the trailing newline cannot be one). */
  lemma AcceptedHasOneAtSign(s: string)
    requires PatternMatches(s)
    ensures exists k :: SoleAtSign(s, k)
  {
    if EmailShape(s) {
      ShapeHasOneAtSign(s);
      assert SoleAtSign(s, FirstAt(s));
    } else {
      var t := s[..|s| - 1];
      ShapeHasOneAtSign(t);
      var k := FirstAt(t);
      forall i | 0 <= i < |s| && s[i] == '@'
        ensures i == k
      {
        if i < |t| {
          assert t[i] == s[i];
        }
      }
      assert s[k] == t[k];
      assert SoleAtSign(s, k);
    }
  }

  /** The last character of a full match is a letter of the top-level label. */
  lemma FullMatchEndsInLetter(s: string)
    requires |s| > 0 && !IsAsciiLetter(s[|s| - 1])
    ensures !FullMatch(s)
  {
  }

  /** A plain address the pattern matches. */
  lemma SampleAddressMatches()
    ensures EmailShape("a@b.io")
  {
    var s := "a@b.io";
    assert MatchesAt(s, 1, 3) by {
      assert s[..1] == "a" && s[2..3] == "b" && s[4..] == "io";
    }
    MatchGivesShape(s, 1, 3);
  }

  /** The `$` quirk: one trailing newline is accepted, although the anchored pattern does
      not match that string. */
  lemma TrailingNewlineAccepted()
    ensures PatternMatches("a@b.io\n")
    ensures !FullMatch("a@b.io\n")
  {
    SampleAddressMatches();
    assert ("a@b.io\n")[..6] == "a@b.io";
    FullMatchEndsInLetter("a@b.io\n");
  }

  /** A second trailing newline is not accepted. */
  lemma SecondNewlineRejected()
    ensures !PatternMatches("a@b.io\n\n")
  {
    FullMatchEndsInLetter("a@b.io\n");
    EmailShapeIsFullMatch("a@b.io\n");
    FullMatchEndsInLetter("a@b.io\n\n");
    EmailShapeIsFullMatch("a@b.io\n\n");
    assert ("a@b.io\n\n")[..7] == "a@b.io\n";
  }
}
