/** The e-mail check both edge functions apply: `/^[^\s@]+@[^\s@]+\.[^\s@]+$/.test(email)`. */
module EmailShape {
  import opened JsText

  /** A run matched by `[^\s@]+`: non-empty, no white space, no '@'. */
  predicate IsSegment(s: string)
  {
    |s| > 0 && forall i :: 0 <= i < |s| ==> !IsWhitespace(s[i]) && s[i] != '@'
  }

  /** The regular expression read directly: `s` is L '@' D '.' T for three segments L, D, T
      (D and T may contain further dots, which the backtracking matcher allows). */
  ghost predicate MatchesEmailPattern(s: string)
  {
    exists at: nat, dot: nat ::
      at < dot < |s| && s[at] == '@' && s[dot] == '.' &&
      IsSegment(s[..at]) && IsSegment(s[at + 1..dot]) && IsSegment(s[dot + 1..])
  }

  /** The check as a decision procedure: no white space, a single '@' that is not the first
      character, and a '.' after it that is neither next to the '@' nor the last character. */
  predicate IsEmail(s: string)
  {
    NoWhitespace(s) && '@' in s &&
    var at := IndexOf(s, '@');
    var domain := s[at + 1..];
    0 < at && '@' !in domain && |domain| >= 3 && '.' in domain[1..|domain| - 1]
  }

  /** The decision procedure accepts exactly the strings the regular expression matches. */
  lemma IsEmailMatchesPattern(s: string)
    ensures IsEmail(s) <==> MatchesEmailPattern(s)
  {
    if IsEmail(s) {
      var at := IndexOf(s, '@');
      var domain := s[at + 1..];
      var d := IndexOf(domain[1..|domain| - 1], '.');
      var dot := at + 2 + d;
      assert s[dot] == '.';
      assert s[..at] == s[..at];
      assert s[at + 1..dot] == domain[..d + 1];
      assert s[dot + 1..] == domain[d + 2..];
      assert IsSegment(s[..at]);
      assert IsSegment(s[at + 1..dot]);
      assert IsSegment(s[dot + 1..]);
    }
    if MatchesEmailPattern(s) {
      var at: nat, dot: nat :|
        at < dot < |s| && s[at] == '@' && s[dot] == '.' &&
        IsSegment(s[..at]) && IsSegment(s[at + 1..dot]) && IsSegment(s[dot + 1..]);
      PatternCharacters(s, at, dot);
    }
  }

  /** Every character of a matched string lies in one of the three segments or is the '@' or the
      '.', which fixes the position of the only '@'. */
  lemma PatternCharacters(s: string, at: nat, dot: nat)
    requires at < dot < |s| && s[at] == '@' && s[dot] == '.'
    requires IsSegment(s[..at]) && IsSegment(s[at + 1..dot]) && IsSegment(s[dot + 1..])
    ensures IsEmail(s)
  {
    forall i | 0 <= i < |s| ensures !IsWhitespace(s[i]) && (s[i] == '@' ==> i == at) {
      if i < at {
        assert s[i] == s[..at][i];
      } else if at < i < dot {
        assert s[i] == s[at + 1..dot][i - at - 1];
      } else if dot < i {
        assert s[i] == s[dot + 1..][i - dot - 1];
      }
    }
    assert IndexOf(s, '@') == at;
    var domain := s[at + 1..];
    assert domain[dot - at - 1] == '.';
    assert domain[1..|domain| - 1][dot - at - 2] == '.';
    assert '@' !in domain by {
      forall k | 0 <= k < |domain| ensures domain[k] != '@' {
        assert domain[k] == s[at + 1 + k];
      }
    }
  }

  /** Lower-casing keeps the shape: '@', '.' and white space are not letters. */
  lemma LowerKeepsEmail(s: string)
    requires IsEmail(s)
    ensures IsEmail(ToLowerAscii(s))
  {
    IsEmailMatchesPattern(s);
    var at: nat, dot: nat :|
      at < dot < |s| && s[at] == '@' && s[dot] == '.' &&
      IsSegment(s[..at]) && IsSegment(s[at + 1..dot]) && IsSegment(s[dot + 1..]);
    LowerKeepsSegments(s, at, dot);
    PatternCharacters(ToLowerAscii(s), at, dot);
  }

  /** Lower-casing keeps each of the three segments a segment. */
  lemma LowerKeepsSegments(s: string, at: nat, dot: nat)
    requires at < dot < |s|
    requires IsSegment(s[..at]) && IsSegment(s[at + 1..dot]) && IsSegment(s[dot + 1..])
    ensures IsSegment(ToLowerAscii(s)[..at])
    ensures IsSegment(ToLowerAscii(s)[at + 1..dot])
    ensures IsSegment(ToLowerAscii(s)[dot + 1..])
  {
    var t := ToLowerAscii(s);
    assert IsSegment(t[..at]) by {
      assert t[..at] == ToLowerAscii(s[..at]);
      LowerKeepsSegment(s[..at]);
    }
    assert IsSegment(t[at + 1..dot]) by {
      assert t[at + 1..dot] == ToLowerAscii(s[at + 1..dot]);
      LowerKeepsSegment(s[at + 1..dot]);
    }
    assert IsSegment(t[dot + 1..]) by {
      assert t[dot + 1..] == ToLowerAscii(s[dot + 1..]);
      LowerKeepsSegment(s[dot + 1..]);
    }
  }

  lemma LowerKeepsSegment(s: string)
    requires IsSegment(s)
    ensures IsSegment(ToLowerAscii(s))
  {
  }

  /** An accepted address has no white space, so `trim()` does not change it. */
  lemma EmailIsTrimmed(s: string)
    requires IsEmail(s)
    ensures Trim(s) == s
  {
    TrimKeepsUnspaced(s);
  }

  /** A malformed address is rejected: it has no '@'. */
  lemma RejectsNotAnEmail()
    ensures !IsEmail("not-an-email")
  {
    var s := "not-an-email";
    assert forall i :: 0 <= i < |s| ==> s[i] != '@';
  }

  /** An ordinary address is accepted. */
  lemma AcceptsPlainAddress()
    ensures IsEmail("ana@example.com")
  {
    var s := "ana@example.com";
    assert s[3] == '@' && s[11] == '.';
    assert s[..3] == "ana" && s[4..11] == "example" && s[12..] == "com";
    LettersSegment("ana");
    LettersSegment("example");
    LettersSegment("com");
    PatternCharacters(s, 3, 11);
  }

  /** A non-empty run of small ASCII letters is a segment. */
  lemma LettersSegment(t: string)
    requires |t| > 0 && forall i :: 0 <= i < |t| ==> 'a' <= t[i] <= 'z'
    ensures IsSegment(t)
  {
  }
}
