/**
  The `while (True)` prompt loops of the inventory generator. Each reads lines one
  at a time from `lines` (what the operator types, in order, without the newline)
  until one line is accepted. Where Python's `input()` would raise `EOFError`
  because nothing is left to read, the loop gives `EndOfInput`.
 */
module Prompts {
  import opened Answers
  import opened Patterns
  import PyInt

  /** A prompt's outcome: the accepted value and how many lines were read, or end of input. */
  datatype Read<T> = Got(value: T, used: nat) | EndOfInput

  /** `judge` asks again for every one of the first `n` lines. */
  ghost predicate AllRetried<T>(judge: string -> Verdict<T>, lines: seq<string>, n: nat)
    requires n <= |lines|
  {
    forall k | 0 <= k < n :: judge(lines[k]).Retry?
  }

  /**
    `r` is what a loop that judges each line with `judge` returns: the value of the
    first line accepted, with every earlier line asked again; or end of input when
    every line was asked again.
   */
  ghost predicate IsFirstAccepted<T>(judge: string -> Verdict<T>, lines: seq<string>, r: Read<T>)
  {
    match r
    case Got(v, used) =>
      0 < used <= |lines| && judge(lines[used - 1]) == Accept(v) && AllRetried(judge, lines, used - 1)
    case EndOfInput => AllRetried(judge, lines, |lines|)
  }

  /** There is one outcome of that kind, so each loop's contract determines what it returns. */
  lemma FirstAcceptedIsUnique<T>(judge: string -> Verdict<T>, lines: seq<string>, r1: Read<T>, r2: Read<T>)
    requires IsFirstAccepted(judge, lines, r1) && IsFirstAccepted(judge, lines, r2)
    ensures r1 == r2
  {
  }

  /** `InventoryGenerator.input_bool` */
  method InputBool(lines: seq<string>, default: bool) returns (r: Read<bool>)
    ensures IsFirstAccepted(line => BoolAnswer(line, default), lines, r)
  {
    var judge := line => BoolAnswer(line, default);
    var i := 0;
    while i < |lines|
      invariant 0 <= i <= |lines|
      invariant AllRetried(judge, lines, i)
    {
      var abort := lines[i];
      i := i + 1;
      var verdict := judge(abort);
      match verdict
      case Accept(b) => return Got(b, i);
      case Retry(_) =>
    }
    return EndOfInput;
  }

  /** `InventoryGenerator.input_int` */
  method InputInt(lines: seq<string>, default: int) returns (r: Read<int>)
    ensures IsFirstAccepted(line => IntAnswer(line, default), lines, r)
  {
    var judge := line => IntAnswer(line, default);
    var i := 0;
    while i < |lines|
      invariant 0 <= i <= |lines|
      invariant AllRetried(judge, lines, i)
    {
      var value := lines[i];
      i := i + 1;
      var verdict := judge(value);
      match verdict
      case Accept(n) => return Got(n, i);
      case Retry(_) =>
    }
    return EndOfInput;
  }

  /**
    `InventoryGenerator.input_hostname`. Whatever it returns is the default or a
    line the hostname pattern fully matches.
   */
  method InputHostname(lines: seq<string>, default: string) returns (r: Read<string>)
    ensures IsFirstAccepted(line => HostnameAnswer(line, default), lines, r)
    ensures r.Got? ==> r.value == default || (r.value == lines[r.used - 1] && IsHostnameLabel(r.value))
  {
    var judge := line => HostnameAnswer(line, default);
    var i := 0;
    while i < |lines|
      invariant 0 <= i <= |lines|
      invariant AllRetried(judge, lines, i)
    {
      var value := lines[i];
      i := i + 1;
      var verdict := judge(value);
      match verdict
      case Accept(h) => return Got(h, i);
      case Retry(_) =>
    }
    return EndOfInput;
  }

  /**
    `InventoryGenerator.input_user`. Whatever it returns is the default or a line
    the user-name pattern fully matches.
   */
  method InputUser(lines: seq<string>, default: string) returns (r: Read<string>)
    ensures IsFirstAccepted(line => UserAnswer(line, default), lines, r)
    ensures r.Got? ==> r.value == default || (r.value == lines[r.used - 1] && IsUserName(r.value))
  {
    var judge := line => UserAnswer(line, default);
    var i := 0;
    while i < |lines|
      invariant 0 <= i <= |lines|
      invariant AllRetried(judge, lines, i)
    {
      var value := lines[i];
      i := i + 1;
      var verdict := judge(value);
      match verdict
      case Accept(u) => return Got(u, i);
      case Retry(_) =>
    }
    return EndOfInput;
  }

  /**
    The port loop of the main flow as intended, with the out-of-range message fixed
    so that `continue` asks again (as written, line 154 raises NameError instead; see
    `PortRunAsWritten`): `input_int` with default 22, repeated until the number is in
    1..65535. Taken together it reads lines until the first one that `PortAnswer`
    accepts, so it never returns a port out of range.
   */
  method InputPort(lines: seq<string>) returns (r: Read<int>)
    ensures IsFirstAccepted(PortAnswer, lines, r)
    ensures r.Got? ==> InPortRange(r.value)
  {
    var pos := 0;
    while true
      invariant 0 <= pos <= |lines|
      invariant AllRetried(PortAnswer, lines, pos)
      decreases |lines| - pos
    {
      var rest := lines[pos..];
      var read := InputInt(rest, DefaultPort);
      match read
      case EndOfInput =>
        forall k | pos <= k < |lines| ensures PortAnswer(lines[k]).Retry? {
          assert rest[k - pos] == lines[k];
          PortRetriedLine(lines[k]);
        }
        return EndOfInput;
      case Got(hostPort, used) =>
        ghost var last := pos + used - 1;
        forall k | pos <= k < last ensures PortAnswer(lines[k]).Retry? {
          assert rest[k - pos] == lines[k];
          PortRetriedLine(lines[k]);
        }
        assert AllRetried(PortAnswer, lines, last);
        assert rest[used - 1] == lines[last];
        PortAcceptedLine(lines[last], hostPort);
        pos := pos + used;
        if hostPort < 1 || hostPort > 65535 {
          RetriedOneMore(PortAnswer, lines, last);
          continue;
        }
        return Got(hostPort, pos);
    }
  }

  /**
    The port prompt asks again after an out-of-range number: typing any integer
    outside 1..65535 and then any port in range yields that port, two lines read.
   */
  lemma PortAsksAgainAfterOutOfRange(bad: int, good: int, r: Read<int>)
    requires !InPortRange(bad) && InPortRange(good)
    requires IsFirstAccepted(PortAnswer, [PyInt.Show(bad), PyInt.Show(good)], r)
    ensures r == Got(good, 2)
  {
    var lines := [PyInt.Show(bad), PyInt.Show(good)];
    PortAnswerMeaning("", bad);
    PortAnswerMeaning("", good);
    assert IsFirstAccepted(PortAnswer, lines, Got(good, 2));
    FirstAcceptedIsUnique(PortAnswer, lines, r, Got(good, 2));
  }

  /** How the port loop of the main flow ends, as written. */
  datatype PortRun = Chosen(port: int, used: nat) | NameErrorRaised(used: nat) | InputExhausted

  /** The same outcome, one more line having been read before it. */
  function Later(r: PortRun): PortRun
  {
    match r
    case Chosen(p, u) => Chosen(p, u + 1)
    case NameErrorRaised(u) => NameErrorRaised(u + 1)
    case InputExhausted => InputExhausted
  }

  /**
    Lines 151-156 as written, except that the bare call `input_int` at line 152 is
    taken to resolve to the helper (as written it raises NameError before reading,
    like every bare helper call of the main flow), so only the defect at line 154 is
    modelled. `input_int` reads lines until one is empty or an integer; then an out-of-range port reaches the message at line 154, whose
    f-string names `value`, which is not bound in the main flow, so NameError ends
    the run before `continue` can ask again (the message would also call 0 allowed).
   */
  function PortRunAsWritten(lines: seq<string>): PortRun
    decreases |lines|
  {
    if lines == [] then InputExhausted
    else match IntAnswer(lines[0], DefaultPort)
      case Retry(_) => Later(PortRunAsWritten(lines[1..]))
      case Accept(hostPort) =>
        if hostPort < 1 || hostPort > 65535 then NameErrorRaised(1) else Chosen(hostPort, 1)
  }

  /**
    `r`, a run of the port loop as written, agrees with the re-prompting loop that
    judges lines by `judge` up to the first out-of-range integer: a port it returns is
    the one the re-prompting loop returns, running out of lines happens to both, and
    where it raises, the line read last is one refused with the range message, after
    lines that were all asked again.
   */
  ghost predicate AgreesUntilRaise(judge: string -> Verdict<int>, lines: seq<string>, r: PortRun)
  {
    match r
    case Chosen(p, u) => IsFirstAccepted(judge, lines, Got(p, u))
    case NameErrorRaised(u) =>
      0 < u <= |lines| && judge(lines[u - 1]) == Retry(PortOutOfRange) && AllRetried(judge, lines, u - 1)
    case InputExhausted => IsFirstAccepted(judge, lines, EndOfInput)
  }

  /** As written, the port loop behaves as `InputPort` until it raises where `InputPort` asks again. */
  lemma {:induction false} PortRunAsWrittenMeaning(lines: seq<string>)
    ensures AgreesUntilRaise(PortAnswer, lines, PortRunAsWritten(lines))
    decreases |lines|
  {
    if lines != [] {
      if IntAnswer(lines[0], DefaultPort).Retry? {
        PortRunAsWrittenMeaning(lines[1..]);
        PortRetriedLine(lines[0]);
        AgreesAfterRetry(PortAnswer, lines, PortRunAsWritten(lines[1..]));
      }
    }
  }

  /** A line `input_int` asks again for is asked again at the port prompt. */
  lemma PortRetriedLine(line: string)
    requires IntAnswer(line, DefaultPort).Retry?
    ensures PortAnswer(line).Retry?
  {
  }

  /** One more line asked again extends the run of lines asked again. */
  lemma RetriedOneMore<T>(judge: string -> Verdict<T>, lines: seq<string>, n: nat)
    requires n < |lines| && AllRetried(judge, lines, n) && judge(lines[n]).Retry?
    ensures AllRetried(judge, lines, n + 1)
  {
  }

  /** The range test decides a line `int()` reads: the port if in range, the range message otherwise. */
  lemma PortAcceptedLine(line: string, n: int)
    requires IntAnswer(line, DefaultPort) == Accept(n)
    ensures PortAnswer(line) == if InPortRange(n) then Accept(n) else Retry(PortOutOfRange)
  {
  }

  /** A line asked again, followed by `n` lines asked again, is `n + 1` lines asked again. */
  lemma RetriedAfterRetry<T>(judge: string -> Verdict<T>, lines: seq<string>, n: nat)
    requires lines != [] && judge(lines[0]).Retry? && n < |lines| && AllRetried(judge, lines[1..], n)
    ensures AllRetried(judge, lines, n + 1)
  {
    forall k | 0 < k < n + 1 ensures judge(lines[k]).Retry? {
      assert lines[k] == lines[1..][k - 1];
    }
  }

  /** Agreement on the lines after a line asked again carries over to all the lines. */
  lemma AgreesAfterRetry(judge: string -> Verdict<int>, lines: seq<string>, r: PortRun)
    requires lines != [] && judge(lines[0]).Retry? && AgreesUntilRaise(judge, lines[1..], r)
    ensures AgreesUntilRaise(judge, lines, Later(r))
  {
    var tail := lines[1..];
    if r.InputExhausted? {
      RetriedAfterRetry(judge, lines, |tail|);
    } else {
      var n := r.used - 1;
      RetriedAfterRetry(judge, lines, n);
      assert lines[n + 1] == tail[n];
    }
  }

  /**
    The finding at lines 153-155: after an out-of-range integer and then a port in
    range, the loop as written has raised NameError on the first line, while the
    re-prompting loop returns the second.
   */
  lemma AsWrittenRaisesWhereCorrectedAsksAgain(bad: int, good: int)
    requires !InPortRange(bad) && InPortRange(good)
    ensures PortRunAsWritten([PyInt.Show(bad), PyInt.Show(good)]) == NameErrorRaised(1)
    ensures IsFirstAccepted(PortAnswer, [PyInt.Show(bad), PyInt.Show(good)], Got(good, 2))
  {
    var lines := [PyInt.Show(bad), PyInt.Show(good)];
    IntAnswerMeaning("", DefaultPort, bad);
    PortAnswerMeaning("", bad);
    PortAnswerMeaning("", good);
    assert lines[0] == PyInt.Show(bad) && lines[1] == PyInt.Show(good);
  }
}
