/**
  What each prompt of the inventory generator decides about ONE line of input:
  accept it (with the value the prompt returns) or ask again (with the diagnostic
  it writes to the error stream, if any). These are the tests inside the
  `while (True)` loops of `InventoryGenerator`, taken out of the loops.
 */
module Answers {
  import opened Wrappers
  import opened PyRegex
  import opened Patterns
  import opened Ascii
  import PyInt

  /** Which message, if any, the prompt writes before asking again. */
  datatype Diagnostic =
    | Silent
    | HostnameTooLong
    | HostnameBadFormat
    | UsernameBadFormat
    | PortOutOfRange

  datatype Verdict<T> = Accept(value: T) | Retry(diagnostic: Diagnostic)

  // ---------------------------------------------------------------- input_bool

  /** ASCII case mapping of one character, as `str.lower()` does for ASCII text. */
  function LowerChar(c: char): char
  {
    if 'A' <= c <= 'Z' then (c as int + 32) as char else c
  }

  /** `str.lower()` on ASCII text. */
  function ToLowerAscii(s: string): string
  {
    seq(|s|, i requires 0 <= i < |s| => LowerChar(s[i]))
  }

  /** Lower-casing maps each character on its own. */
  lemma ToLowerAsciiAt(s: string)
    ensures |ToLowerAscii(s)| == |s|
    ensures forall i | 0 <= i < |s| :: ToLowerAscii(s)[i] == LowerChar(s[i])
  {
  }

  /**
    Lower-casing leaves no upper-case ASCII letter, changes nothing else, and is
    idempotent: lower-casing the result again gives the result.
   */
  lemma ToLowerAsciiMeaning(s: string)
    ensures forall i | 0 <= i < |s| :: !('A' <= ToLowerAscii(s)[i] <= 'Z')
    ensures forall i | 0 <= i < |s| && !('A' <= s[i] <= 'Z') :: ToLowerAscii(s)[i] == s[i]
    ensures ToLowerAscii(ToLowerAscii(s)) == ToLowerAscii(s)
  {
    var r := ToLowerAscii(s);
    ToLowerAsciiAt(s);
    ToLowerAsciiAt(r);
    assert ToLowerAscii(r) == r;
  }

  /** The `match` on the lower-cased answer in `input_bool`; any other text asks again. */
  function BoolAnswer(line: string, default: bool): Verdict<bool>
  {
    var answer := ToLowerAscii(line);
    if answer == "yes" || answer == "y" || answer == "1" then Accept(true)
    else if answer == "no" || answer == "n" || answer == "0" then Accept(false)
    else if answer == "" then Accept(default)
    else Retry(Silent)
  }

  /** Every spelling, in any mix of cases, that means yes. */
  const YesSpellings: set<string> :=
    {"1", "y", "Y", "yes", "yeS", "yEs", "yES", "Yes", "YeS", "YEs", "YES"}
  /** Every spelling, in any mix of cases, that means no. */
  const NoSpellings: set<string> := {"0", "n", "N", "no", "nO", "No", "NO"}

  lemma LowerOne(line: string, w: char, u: char)
    requires 'a' <= w <= 'z' && u as int == w as int - 32
    requires ToLowerAscii(line) == [w]
    ensures line == [w] || line == [u]
  {
  }

  lemma LowerTwo(line: string, w0: char, w1: char, u0: char, u1: char)
    requires 'a' <= w0 <= 'z' && u0 as int == w0 as int - 32
    requires 'a' <= w1 <= 'z' && u1 as int == w1 as int - 32
    requires ToLowerAscii(line) == [w0, w1]
    ensures line in {[w0, w1], [w0, u1], [u0, w1], [u0, u1]}
  {
    ToLowerAsciiAt(line);
    assert LowerChar(line[0]) == w0 && LowerChar(line[1]) == w1;
    assert line == [line[0], line[1]];
  }

  lemma LowerYes(line: string)
    requires ToLowerAscii(line) == "yes"
    ensures line in YesSpellings
  {
    ToLowerAsciiAt(line);
    assert LowerChar(line[0]) == 'y' && LowerChar(line[1]) == 'e' && LowerChar(line[2]) == 's';
    assert line == [line[0], line[1], line[2]];
  }

  lemma LowerDigit(line: string, d: char)
    requires d == '0' || d == '1'
    requires ToLowerAscii(line) == [d]
    ensures line == [d]
  {
  }

  /**
    `input_bool` is case-insensitive over exactly the words yes/y/1 and no/n/0: it
    answers true for a spelling of yes, false for a spelling of no, the caller's
    default for an empty line, and asks again for every other line.
   */
  lemma BoolAnswerSpellings(line: string, default: bool)
    ensures BoolAnswer(line, default) == Accept(true) <==> line in YesSpellings || (line == "" && default)
    ensures BoolAnswer(line, default) == Accept(false) <==> line in NoSpellings || (line == "" && !default)
    ensures BoolAnswer(line, default).Retry? <==> line != "" && line !in YesSpellings && line !in NoSpellings
  {
    var answer := ToLowerAscii(line);
    if answer == "yes" {
      LowerYes(line);
    } else if answer == "y" {
      LowerOne(line, 'y', 'Y');
    } else if answer == "1" {
      LowerDigit(line, '1');
    } else if answer == "no" {
      LowerTwo(line, 'n', 'o', 'N', 'O');
    } else if answer == "n" {
      LowerOne(line, 'n', 'N');
    } else if answer == "0" {
      LowerDigit(line, '0');
    }
  }

  // ---------------------------------------------------------------- input_int

  /** `input_int`: an empty line gives the default, a line `int()` accepts gives its value. */
  function IntAnswer(line: string, default: int): Verdict<int>
  {
    if line == "" then Accept(default)
    else match PyInt.ParseInt(line)
      case Some(n) => Accept(n)
      case None => Retry(Silent)
  }

  /**
    `input_int` reads back the decimal spelling of every integer, never complains
    (a line it cannot read is asked again silently, the ValueError never reaches
    the caller), and asks again for any line holding a letter or a dot.
   */
  lemma IntAnswerMeaning(line: string, default: int, n: int)
    ensures IntAnswer(PyInt.Show(n), default) == Accept(n)
    ensures IntAnswer(line, default).Retry? ==> IntAnswer(line, default).diagnostic == Silent
    ensures line != "" && (exists i | 0 <= i < |line| ::
              !IsDigitAscii(line[i]) && !PyInt.IsSpace(line[i]) && line[i] !in {'+', '-', '_'})
            ==> IntAnswer(line, default) == Retry(Silent)
  {
    PyInt.ParseShow(n);
    assert PyInt.Show(n) != "";
    if line != "" && PyInt.ParseInt(line).Some? {
      PyInt.AcceptedText(line);
    }
  }

  // ---------------------------------------------------------------- input_hostname

  /** `input_hostname`: empty gives the default; then the length test; then the pattern. */
  function HostnameAnswer(value: string, default: string): Verdict<string>
  {
    if value == "" then Accept(default)
    else if |value| > MaxHostnameLength then Retry(HostnameTooLong)
    else if !IsHostnameLabel(value) then Retry(HostnameBadFormat)
    else Accept(value)
  }

  /**
    A non-empty line is returned unchanged exactly when the hostname pattern fully
    matches it; a line over 253 characters is refused as too long, and any other
    line is refused as badly formed. What is returned is a single label: 1 to 63
    characters of `[a-z0-9-]`, no hyphen at either end, no dot, so at most 253 long.
   */
  lemma HostnameAnswerMeaning(value: string, default: string)
    ensures value == "" ==> HostnameAnswer(value, default) == Accept(default)
    ensures value != "" ==> (HostnameAnswer(value, default) == Accept(value) <==> FullMatch(HostnamePattern, value))
    ensures |value| > MaxHostnameLength ==> HostnameAnswer(value, default) == Retry(HostnameTooLong)
    ensures value != "" && |value| <= MaxHostnameLength && !FullMatch(HostnamePattern, value)
            ==> HostnameAnswer(value, default) == Retry(HostnameBadFormat)
    ensures value != "" && HostnameAnswer(value, default).Accept? ==>
              var h := HostnameAnswer(value, default).value;
              h == value && 1 <= |h| <= MaxLabelLength && |h| <= MaxHostnameLength &&
              h[0] != '-' && h[|h| - 1] != '-' && '.' !in h &&
              forall i | 0 <= i < |h| :: IsLowerAscii(h[i]) || IsDigitAscii(h[i]) || h[i] == '-'
  {
    HostnamePatternMeaning(value);
  }

  /** The 253-character test never decides acceptance: the pattern alone refuses every such line. */
  lemma LengthTestOnlyNamesTheReason(value: string)
    requires |value| > MaxHostnameLength
    ensures !FullMatch(HostnamePattern, value)
  {
  }

  // ---------------------------------------------------------------- input_user

  /** `input_user`: empty gives the default; then the user-name pattern. */
  function UserAnswer(value: string, default: string): Verdict<string>
  {
    if value == "" then Accept(default)
    else if !IsUserName(value) then Retry(UsernameBadFormat)
    else Accept(value)
  }

  /**
    A non-empty line is returned unchanged exactly when the user-name pattern fully
    matches it, and is otherwise refused with the user-name diagnostic.
   */
  lemma UserAnswerMeaning(value: string, default: string)
    ensures value == "" ==> UserAnswer(value, default) == Accept(default)
    ensures value != "" ==> (UserAnswer(value, default) == Accept(value) <==> FullMatch(UserPattern, value))
    ensures value != "" && !FullMatch(UserPattern, value) ==> UserAnswer(value, default) == Retry(UsernameBadFormat)
    ensures value != "" && UserAnswer(value, default).Accept? ==>
              var u := UserAnswer(value, default).value;
              u == value && IsLowerAscii(u[0]) &&
              forall i | 1 <= i < |u| :: u[i] == '-' || IsLowerAscii(u[i]) || IsDigitAscii(u[i]) || u[i] == '_'
  {
    UserPatternMeaning(value);
  }

  // ---------------------------------------------------------------- the port prompt

  const DefaultPort := 22

  predicate InPortRange(port: int)
  {
    1 <= port <= 65535
  }

  /**
    One line at the port prompt of the intended main flow: `input_int` with default 22
    reads it, then the range test either keeps the number or asks again. As written,
    the message at line 154 raises NameError instead of asking again.
   */
  function PortAnswer(line: string): Verdict<int>
  {
    match IntAnswer(line, DefaultPort)
    case Retry(d) => Retry(d)
    case Accept(n) => if n < 1 || n > 65535 then Retry(PortOutOfRange) else Accept(n)
  }

  /**
    The port prompt only lets through ports 1 to 65535; the empty line's default 22
    is one of them; every port in range, typed in decimal, is accepted as itself, and
    every integer out of range is refused with the range diagnostic.
   */
  lemma PortAnswerMeaning(line: string, n: int)
    ensures PortAnswer(line).Accept? ==> InPortRange(PortAnswer(line).value)
    ensures PortAnswer("") == Accept(DefaultPort) && InPortRange(DefaultPort)
    ensures InPortRange(n) ==> PortAnswer(PyInt.Show(n)) == Accept(n)
    ensures !InPortRange(n) ==> PortAnswer(PyInt.Show(n)) == Retry(PortOutOfRange)
  {
    IntAnswerMeaning(line, DefaultPort, n);
  }

  lemma RunExample()
    ensures PyInt.IsDigitRun("2222") && PyInt.RunValue("2222") == 2222
  {
    assert "2222"[..3] == "222" && "222"[..2] == "22" && "22"[..1] == "2" && "2"[..0] == "";
  }

  /** Typing 2222 at the port prompt selects port 2222. */
  lemma PortExample()
    ensures PortAnswer("2222") == Accept(2222)
  {
    RunExample();
    PyInt.ParseRun("2222");
  }
}
