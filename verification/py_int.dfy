/**
  The part of Python's built-in `int(text)` (base 10) that the port prompt relies on:
  surrounding whitespace is stripped, an optional `+` or `-` sign may come first,
  then ASCII decimal digits, with single underscores allowed between two digits.
  Anything else makes `int` raise `ValueError`, which is `None` here.
 */
module PyInt {
  import opened Wrappers
  import opened Ascii

  /** The ASCII characters `int()` skips around the number. */
  predicate IsSpace(c: char)
  {
    c == ' ' || c == '\t' || c == '\n' || c == '\r' || c == '\U{000B}' || c == '\U{000C}'
  }

  /** Drops the leading whitespace, and nothing else. */
  function TrimStart(s: string): (r: string)
    ensures |r| <= |s| && r == s[|s| - |r|..]
    ensures forall i | 0 <= i < |s| - |r| :: IsSpace(s[i])
    ensures r == [] || !IsSpace(r[0])
  {
    if s != [] && IsSpace(s[0]) then TrimStart(s[1..]) else s
  }

  /** Drops the trailing whitespace, and nothing else. */
  function TrimEnd(s: string): (r: string)
    ensures |r| <= |s| && r == s[..|r|]
    ensures forall i | |r| <= i < |s| :: IsSpace(s[i])
    ensures r == [] || !IsSpace(r[|r| - 1])
  {
    if s != [] && IsSpace(s[|s| - 1]) then TrimEnd(s[..|s| - 1]) else s
  }

  /** `s.strip()` */
  function Strip(s: string): string
  {
    TrimEnd(TrimStart(s))
  }

  /** Decimal digits, where an underscore may separate two digits. */
  predicate IsDigitRun(d: string)
  {
    |d| > 0 && IsDigitAscii(d[0]) && IsDigitAscii(d[|d| - 1]) &&
    (forall i | 0 <= i < |d| :: IsDigitAscii(d[i]) || d[i] == '_') &&
    (forall i | 0 <= i < |d| - 1 :: d[i] == '_' ==> d[i + 1] != '_')
  }

  /** The number a run of digits and underscores denotes; underscores are ignored. */
  function RunValue(d: string): nat
    requires forall i | 0 <= i < |d| :: IsDigitAscii(d[i]) || d[i] == '_'
  {
    if d == [] then 0
    else
      var last := d[|d| - 1];
      if last == '_' then RunValue(d[..|d| - 1])
      else
        assert IsDigitAscii(last);
        RunValue(d[..|d| - 1]) * 10 + (last as int - '0' as int)
  }

  /** `int(text)`: the value, or None where Python raises ValueError. */
  function ParseInt(text: string): Option<int>
  {
    var t := Strip(text);
    if t != [] && (t[0] == '+' || t[0] == '-') then
      var body := t[1..];
      if IsDigitRun(body) then
        var v: int := RunValue(body);
        Some(if t[0] == '-' then -v else v)
      else None
    else if IsDigitRun(t) then Some(RunValue(t))
    else None
  }

  function DigitChar(d: nat): (c: char)
    requires d < 10
    ensures IsDigitAscii(c) && c as int - '0' as int == d
  {
    (d + '0' as int) as char
  }

  /** `str(n)` for a non-negative n: decimal digits, most significant first, no padding. */
  function ShowNat(n: nat): (s: string)
    ensures |s| > 0 && forall i | 0 <= i < |s| :: IsDigitAscii(s[i])
  {
    if n < 10 then [DigitChar(n)] else ShowNat(n / 10) + [DigitChar(n % 10)]
  }

  /** `str(n)` */
  function Show(n: int): string
  {
    if n < 0 then "-" + ShowNat(-n) else ShowNat(n)
  }

  lemma {:induction false} ShowNatValue(n: nat)
    ensures RunValue(ShowNat(n)) == n
  {
    if n >= 10 {
      var s := ShowNat(n);
      ShowNatValue(n / 10);
      assert s[..|s| - 1] == ShowNat(n / 10);
    }
  }

  /** A text with no whitespace at either end is left alone by stripping. */
  lemma StripUnpadded(s: string)
    requires s != [] && !IsSpace(s[0]) && !IsSpace(s[|s| - 1])
    ensures Strip(s) == s
  {
  }

  lemma ParseRun(d: string)
    requires IsDigitRun(d)
    ensures ParseInt(d) == Some(RunValue(d))
  {
    StripUnpadded(d);
  }

  lemma ParseNegatedRun(d: string)
    requires IsDigitRun(d)
    ensures ParseInt(['-'] + d) == Some(0 - RunValue(d))
  {
    var s := ['-'] + d;
    assert s[1..] == d;
    assert s[|s| - 1] == d[|d| - 1];
    StripUnpadded(s);
  }

  /** `int(str(n)) == n`: every integer's decimal spelling is read back as that integer. */
  lemma ParseShow(n: int)
    ensures ParseInt(Show(n)) == Some(n)
  {
    var m: nat := if n < 0 then -n else n;
    var digits := ShowNat(m);
    ShowNatValue(m);
    assert IsDigitRun(digits);
    if n < 0 {
      ParseNegatedRun(digits);
    } else {
      ParseRun(digits);
    }
  }

  /** Stripping keeps a contiguous slice of the text and drops only whitespace around it. */
  lemma StripSlice(s: string) returns (a: nat)
    ensures a + |Strip(s)| <= |s| && Strip(s) == s[a..a + |Strip(s)|]
    ensures forall i | 0 <= i < |s| && !(a <= i < a + |Strip(s)|) :: IsSpace(s[i])
  {
    var u := TrimStart(s);
    a := |s| - |u|;
  }

  /**
    A text that `int` accepts holds at least one decimal digit, and every one of its
    characters is a digit, whitespace, a sign or an underscore: a line with a letter
    or a dot in it is never read as an integer.
   */
  lemma AcceptedText(text: string)
    requires ParseInt(text).Some?
    ensures exists i | 0 <= i < |text| :: IsDigitAscii(text[i])
    ensures forall i | 0 <= i < |text| ::
      IsDigitAscii(text[i]) || IsSpace(text[i]) || text[i] in {'+', '-', '_'}
  {
    var t := Strip(text);
    var a := StripSlice(text);
    var off := if t != [] && (t[0] == '+' || t[0] == '-') then 1 else 0;
    var body := t[off..];
    assert IsDigitRun(body);
    assert IsDigitAscii(text[a + off]);
    forall i | 0 <= i < |text|
      ensures IsDigitAscii(text[i]) || IsSpace(text[i]) || text[i] in {'+', '-', '_'}
    {
      if a + off <= i < a + |t| {
        assert text[i] == body[i - a - off];
      } else if a <= i < a + off {
        assert text[i] == t[0];
      }
    }
  }
}
