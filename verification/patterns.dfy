/**
  The two regular expressions the generator validates with `re.fullmatch`, and a
  character-by-character reading of each that the classifiers evaluate. The lemmas
  show that the reading accepts exactly the strings the pattern fully matches.
 */
module Patterns {
  import opened Wrappers
  import opened PyRegex
  import opened Ascii

  /** Longest hostname the prompt lets through to the pattern check. */
  const MaxHostnameLength := 253
  /** Longest run the hostname pattern's `{1,63}` allows. */
  const MaxLabelLength := 63

  /** `[a-z0-9-]` */
  const LabelClass: CharClass := [('a', 'z'), ('0', '9'), ('-', '-')]

  /** `(?!-)[a-z0-9-]{1,63}(?<!-)$` */
  const HostnamePattern: Regex :=
    Concat(NegLookahead('-'),
      Concat(Repeat(LabelClass, 1, Some(MaxLabelLength)),
        Concat(NegLookbehind('-'), EndAnchor)))

  /** `[a-z]` */
  const UserFirstClass: CharClass := [('a', 'z')]
  /** `[-a-z0-9_]` */
  const UserClass: CharClass := [('-', '-'), ('a', 'z'), ('0', '9'), ('_', '_')]

  /** `^[a-z][-a-z0-9_]*$` */
  const UserPattern: Regex :=
    Concat(StartAnchor,
      Concat(Class(UserFirstClass),
        Concat(Repeat(UserClass, 0, None), EndAnchor)))

  predicate IsLabelChar(c: char)
  {
    IsLowerAscii(c) || IsDigitAscii(c) || c == '-'
  }

  /** A single DNS-style label: 1 to 63 of `[a-z0-9-]`, with no hyphen at either end. */
  predicate IsHostnameLabel(s: string)
  {
    1 <= |s| <= MaxLabelLength &&
    (forall i | 0 <= i < |s| :: IsLabelChar(s[i])) &&
    s[0] != '-' && s[|s| - 1] != '-'
  }

  predicate IsUserChar(c: char)
  {
    c == '-' || IsLowerAscii(c) || IsDigitAscii(c) || c == '_'
  }

  /** A lower-case ASCII letter followed by any number of `[-a-z0-9_]`. */
  predicate IsUserName(s: string)
  {
    |s| >= 1 && IsLowerAscii(s[0]) && forall i | 1 <= i < |s| :: IsUserChar(s[i])
  }

  lemma LabelClassMeaning(c: char)
    ensures InClass(LabelClass, c) <==> IsLabelChar(c)
  {
    if IsLowerAscii(c) {
      assert LabelClass[0].0 <= c <= LabelClass[0].1;
    } else if IsDigitAscii(c) {
      assert LabelClass[1].0 <= c <= LabelClass[1].1;
    } else if c == '-' {
      assert LabelClass[2].0 <= c <= LabelClass[2].1;
    }
  }

  lemma UserClassMeaning(c: char)
    ensures InClass(UserClass, c) <==> IsUserChar(c)
    ensures InClass(UserFirstClass, c) <==> IsLowerAscii(c)
  {
    if c == '-' {
      assert UserClass[0].0 <= c <= UserClass[0].1;
    } else if IsLowerAscii(c) {
      assert UserClass[1].0 <= c <= UserClass[1].1;
      assert UserFirstClass[0].0 <= c <= UserFirstClass[0].1;
    } else if IsDigitAscii(c) {
      assert UserClass[2].0 <= c <= UserClass[2].1;
    } else if c == '_' {
      assert UserClass[3].0 <= c <= UserClass[3].1;
    }
  }

  /** Every single label is fully matched by the hostname pattern. */
  lemma LabelIsMatched(s: string)
    requires IsHostnameLabel(s)
    ensures FullMatch(HostnamePattern, s)
  {
    var n := |s|;
    var tail := Concat(NegLookbehind('-'), EndAnchor);
    forall k | 0 <= k < n ensures InClass(LabelClass, s[k]) {
      LabelClassMeaning(s[k]);
    }
    assert Matches(Repeat(LabelClass, 1, Some(MaxLabelLength)), s, 0, n);
    assert Matches(NegLookbehind('-'), s, n, n);
    assert Matches(EndAnchor, s, n, n);
    assert Matches(tail, s, n, n);
    assert Matches(Concat(Repeat(LabelClass, 1, Some(MaxLabelLength)), tail), s, 0, n);
    assert Matches(NegLookahead('-'), s, 0, 0);
  }

  /** Whatever the hostname pattern fully matches is a single label. */
  lemma MatchedIsLabel(s: string)
    requires FullMatch(HostnamePattern, s)
    ensures IsHostnameLabel(s)
  {
    var n := |s|;
    var tail := Concat(NegLookbehind('-'), EndAnchor);
    var body := Concat(Repeat(LabelClass, 1, Some(MaxLabelLength)), tail);
    var m0 :| 0 <= m0 <= n && Matches(NegLookahead('-'), s, 0, m0) && Matches(body, s, m0, n);
    assert m0 == 0;
    var m1 :| 0 <= m1 <= n && Matches(Repeat(LabelClass, 1, Some(MaxLabelLength)), s, 0, m1)
      && Matches(tail, s, m1, n);
    var m2 :| m1 <= m2 <= n && Matches(NegLookbehind('-'), s, m1, m2) && Matches(EndAnchor, s, m2, n);
    assert m1 == m2 == n;
    forall k | 0 <= k < n ensures IsLabelChar(s[k]) {
      LabelClassMeaning(s[k]);
    }
  }

  /**
    `re.fullmatch(HostnamePattern, s)` succeeds exactly for a single label. In particular
    the `$` cannot let a trailing newline through, since a full match must end at the end of `s`.
   */
  lemma HostnamePatternMeaning(s: string)
    ensures FullMatch(HostnamePattern, s) <==> IsHostnameLabel(s)
  {
    if IsHostnameLabel(s) {
      LabelIsMatched(s);
    }
    if FullMatch(HostnamePattern, s) {
      MatchedIsLabel(s);
    }
  }

  /** Every well-formed user name is fully matched by the user-name pattern. */
  lemma UserNameIsMatched(s: string)
    requires IsUserName(s)
    ensures FullMatch(UserPattern, s)
  {
    var n := |s|;
    var tail := Concat(Repeat(UserClass, 0, None), EndAnchor);
    UserClassMeaning(s[0]);
    forall k | 1 <= k < n ensures InClass(UserClass, s[k]) {
      UserClassMeaning(s[k]);
    }
    assert Matches(Repeat(UserClass, 0, None), s, 1, n);
    assert Matches(EndAnchor, s, n, n);
    assert Matches(tail, s, 1, n);
    assert Matches(Class(UserFirstClass), s, 0, 1);
    assert Matches(Concat(Class(UserFirstClass), tail), s, 0, n);
    assert Matches(StartAnchor, s, 0, 0);
  }

  /** Whatever the user-name pattern fully matches is a well-formed user name. */
  lemma MatchedIsUserName(s: string)
    requires FullMatch(UserPattern, s)
    ensures IsUserName(s)
  {
    var n := |s|;
    var tail := Concat(Repeat(UserClass, 0, None), EndAnchor);
    var body := Concat(Class(UserFirstClass), tail);
    var m0 :| 0 <= m0 <= n && Matches(StartAnchor, s, 0, m0) && Matches(body, s, m0, n);
    assert m0 == 0;
    var m1 :| 0 <= m1 <= n && Matches(Class(UserFirstClass), s, 0, m1) && Matches(tail, s, m1, n);
    assert m1 == 1;
    UserClassMeaning(s[0]);
    var m2 :| 1 <= m2 <= n && Matches(Repeat(UserClass, 0, None), s, 1, m2) && Matches(EndAnchor, s, m2, n);
    assert m2 == n;
    forall k | 1 <= k < n ensures IsUserChar(s[k]) {
      UserClassMeaning(s[k]);
    }
  }

  /** `re.fullmatch(UserPattern, s)` succeeds exactly for a well-formed user name. */
  lemma UserPatternMeaning(s: string)
    ensures FullMatch(UserPattern, s) <==> IsUserName(s)
  {
    if IsUserName(s) {
      UserNameIsMatched(s);
    }
    if FullMatch(UserPattern, s) {
      MatchedIsUserName(s);
    }
  }
}
