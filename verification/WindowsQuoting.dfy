/** Windows command lines: how arguments are quoted, and the Microsoft rules by which a process reads them back. */
module WindowsQuoting {

  function Backslashes(n: nat): (r: string)
    ensures |r| == n && forall i :: 0 <= i < n ==> r[i] == '\\'
  {
    seq(n, _ => '\\')
  }

  predicate Blank(c: char) {
    c == ' ' || c == '\t'
  }

  predicate Plain(s: string) {
    s != "" && forall i :: 0 <= i < |s| ==> !Blank(s[i]) && s[i] != '"'
  }

  // ---- Quoting -----------------------------------------------------------------------------

  /** The text between the outer quotes, after `pending` backslashes that are still to be written. */
  function Escaped(s: string, pending: nat): string {
    if s == "" then Backslashes(2 * pending)
    else if s[0] == '\\' then Escaped(s[1..], pending + 1)
    else if s[0] == '"' then Backslashes(2 * pending + 1) + "\"" + Escaped(s[1..], 0)
    else Backslashes(pending) + [s[0]] + Escaped(s[1..], 0)
  }

  function Quoted(s: string): string {
    if Plain(s) then s else "\"" + Escaped(s, 0) + "\""
  }

  lemma {:induction false} EscapedLength(s: string, pending: nat)
    ensures |Escaped(s, pending)| >= |s| + pending
    decreases |s|
  {
    if s != "" {
      EscapedLength(s[1..], if s[0] == '\\' then pending + 1 else 0);
    }
  }

  /** An argument is left as it is exactly when it is not empty and holds no space, tab or quote. */
  lemma QuotedOnlyWhenNeeded(s: string)
    ensures Quoted(s) == s <==> s != "" && ' ' !in s && '\t' !in s && '"' !in s
  {
    EscapedLength(s, 0);
  }

  method QuoteWindowsArgument(argument: string) returns (output: string)
    ensures output == Quoted(argument)
  {
    if Plain(argument) {
      return argument;
    }
    output := "\"";
    var backslashes := 0;
    assert argument[0..] == argument;
    for i := 0 to |argument|
      invariant output + Escaped(argument[i..], backslashes) == "\"" + Escaped(argument, 0)
    {
      assert argument[i..][1..] == argument[i + 1..];
      var rest := Escaped(argument[i + 1..], 0);
      if argument[i] == '\\' {
        backslashes := backslashes + 1;
      } else if argument[i] == '"' {
        assert output + (Backslashes(backslashes * 2 + 1) + "\"" + rest)
               == output + Backslashes(backslashes * 2 + 1) + "\"" + rest;
        output := output + Backslashes(backslashes * 2 + 1) + "\"";
        backslashes := 0;
      } else {
        assert output + (Backslashes(backslashes) + [argument[i]] + rest)
               == output + Backslashes(backslashes) + [argument[i]] + rest;
        output := output + Backslashes(backslashes) + [argument[i]];
        backslashes := 0;
      }
    }
    output := output + Backslashes(backslashes * 2);
    output := output + "\"";
  }

  function CommandLine(arguments: seq<string>): string {
    if arguments == [] then ""
    else if |arguments| == 1 then Quoted(arguments[0])
    else Quoted(arguments[0]) + (" " + CommandLine(arguments[1..]))
  }

  // ---- Reading back ------------------------------------------------------------------------

  /** What a quote directly after a quote means inside a quoted stretch; runtimes differ. */
  datatype DoubledQuote = Closes | Literal | LiteralAndCloses

  /** One argument, and what is left after it. An even run of backslashes before a quote stands for half
      as many and the quote opens or closes; an odd run stands for half as many and a literal quote;
      other backslashes stand for themselves. `run` backslashes have just been read. */
  function Argument(s: string, quoted: bool, run: nat, rule: DoubledQuote): (r: (string, string))
    ensures |r.1| <= |s|
    ensures s != "" && (quoted || !Blank(s[0])) ==> |r.1| < |s|
    decreases |s|
  {
    if s == "" then (Backslashes(run), "")
    else if s[0] == '\\' then Argument(s[1..], quoted, run + 1, rule)
    else if s[0] == '"' then
      if run % 2 == 1 then
        var r := Argument(s[1..], quoted, 0, rule);
        (Backslashes(run / 2) + ("\"" + r.0), r.1)
      else if quoted && rule != Closes && |s| > 1 && s[1] == '"' then
        var r := Argument(s[2..], rule == Literal, 0, rule);
        (Backslashes(run / 2) + ("\"" + r.0), r.1)
      else
        var r := Argument(s[1..], !quoted, 0, rule);
        (Backslashes(run / 2) + r.0, r.1)
    else if Blank(s[0]) && !quoted then (Backslashes(run), s)
    else
      var r := Argument(s[1..], quoted, 0, rule);
      (Backslashes(run) + ([s[0]] + r.0), r.1)
  }

  function Arguments(s: string, rule: DoubledQuote): seq<string>
    decreases |s|
  {
    if s == "" then []
    else if Blank(s[0]) then Arguments(s[1..], rule)
    else
      var r := Argument(s, false, 0, rule);
      [r.0] + Arguments(r.1, rule)
  }

  // ---- The round trip ----------------------------------------------------------------------

  /** What may follow an argument on a command line. */
  predicate Ends(tail: string) {
    tail == "" || tail[0] == ' '
  }

  lemma {:induction false} RunOfBackslashes(n: nat, rest: string, quoted: bool, run: nat, rule: DoubledQuote)
    ensures Argument(Backslashes(n) + rest, quoted, run, rule) == Argument(rest, quoted, run + n, rule)
  {
    var s := Backslashes(n) + rest;
    if n > 0 {
      assert s[1..] == Backslashes(n - 1) + rest;
      RunOfBackslashes(n - 1, rest, quoted, run + 1, rule);
    } else {
      assert s == rest;
    }
  }

  /** A quote after an odd run, or a character that is neither special nor ends the argument, is read
      and followed by the rest. */
  lemma ReadsOn(s: string, run: nat, rest: string, quoted: bool, tail: string, rule: DoubledQuote)
    requires s != "" && s[0] != '\\' && (s[0] == '"' ==> run % 2 == 1) && (quoted || !Blank(s[0]))
    requires Argument(rest, quoted, 0, rule) == (Backslashes(0) + s[1..], tail)
    ensures Argument([s[0]] + rest, quoted, run, rule)
            == (Backslashes(if s[0] == '"' then run / 2 else run) + s, tail)
  {
    assert ([s[0]] + rest)[1..] == rest;
    assert Backslashes(0) + s[1..] == s[1..];
    assert s == [s[0]] + s[1..];
  }

  lemma ClosesThere(pending: nat, tail: string, rule: DoubledQuote)
    requires Ends(tail)
    ensures Argument(Backslashes(2 * pending) + ("\"" + tail), true, 0, rule) == (Backslashes(pending) + "", tail)
  {
    var close := "\"" + tail;
    RunOfBackslashes(2 * pending, close, true, 0, rule);
    assert close[1..] == tail;
    assert Argument(tail, false, 0, rule) == ("", tail);
  }

  lemma EscapedStep(s: string, pending: nat, close: string)
    requires s != "" && s[0] != '\\'
    ensures Escaped(s, pending) + close
            == Backslashes(if s[0] == '"' then 2 * pending + 1 else pending) + ([s[0]] + (Escaped(s[1..], 0) + close))
  {
  }

  lemma OneMore(pending: nat, s: string)
    requires s != "" && s[0] == '\\'
    ensures Backslashes(pending + 1) + s[1..] == Backslashes(pending) + s
  {
  }

  lemma {:induction false} EscapedReadsBack(s: string, pending: nat, tail: string, rule: DoubledQuote)
    requires Ends(tail)
    ensures Argument(Escaped(s, pending) + ("\"" + tail), true, 0, rule) == (Backslashes(pending) + s, tail)
    decreases |s|
  {
    hide Argument;
    if s == "" {
      ClosesThere(pending, tail, rule);
    } else if s[0] == '\\' {
      EscapedReadsBack(s[1..], pending + 1, tail, rule);
      OneMore(pending, s);
    } else {
      var n := if s[0] == '"' then 2 * pending + 1 else pending;
      var rest := Escaped(s[1..], 0) + ("\"" + tail);
      EscapedReadsBack(s[1..], 0, tail, rule);
      EscapedStep(s, pending, "\"" + tail);
      RunOfBackslashes(n, [s[0]] + rest, true, 0, rule);
      ReadsOn(s, n, rest, true, tail, rule);
    }
  }

  lemma {:induction false} PlainReadsBack(s: string, run: nat, tail: string, rule: DoubledQuote)
    requires s == "" || Plain(s)
    requires Ends(tail)
    ensures Argument(s + tail, false, run, rule) == (Backslashes(run) + s, tail)
    decreases |s|
  {
    if s == "" {
      assert s + tail == tail && Backslashes(run) + s == Backslashes(run);
    } else {
      assert (s + tail)[1..] == s[1..] + tail;
      if s[0] == '\\' {
        PlainReadsBack(s[1..], run + 1, tail, rule);
        assert Backslashes(run + 1) + s[1..] == Backslashes(run) + s;
      } else {
        PlainReadsBack(s[1..], 0, tail, rule);
        assert s + tail == [s[0]] + (s[1..] + tail);
        ReadsOn(s, run, s[1..] + tail, false, tail, rule);
      }
    }
  }

  lemma Opens(inner: string, rule: DoubledQuote)
    ensures var r := Argument(inner, true, 0, rule);
            Argument("\"" + inner, false, 0, rule) == (Backslashes(0) + r.0, r.1)
  {
    assert ("\"" + inner)[1..] == inner;
  }

  lemma QuotedReadsBack(s: string, tail: string, rule: DoubledQuote)
    requires Ends(tail)
    ensures Argument(Quoted(s) + tail, false, 0, rule) == (s, tail)
    ensures Quoted(s) != "" && !Blank(Quoted(s)[0])
  {
    hide Escaped;
    assert Backslashes(0) + s == s;
    if Plain(s) {
      PlainReadsBack(s, 0, tail, rule);
    } else {
      var inner := Escaped(s, 0) + ("\"" + tail);
      EscapedReadsBack(s, 0, tail, rule);
      Opens(inner, rule);
      assert Quoted(s) + tail == "\"" + inner;
    }
  }

  /** Every list of arguments is read back as it was, whatever a doubled quote means. */
  lemma {:induction false} CommandLineReadsBack(arguments: seq<string>, rule: DoubledQuote)
    ensures Arguments(CommandLine(arguments), rule) == arguments
  {
    if arguments != [] {
      var tail := if |arguments| == 1 then "" else " " + CommandLine(arguments[1..]);
      var line := CommandLine(arguments);
      assert line == Quoted(arguments[0]) + tail;
      QuotedReadsBack(arguments[0], tail, rule);
      CommandLineReadsBack(arguments[1..], rule);
      if |arguments| > 1 {
        assert tail[1..] == CommandLine(arguments[1..]);
      }
      assert Arguments(tail, rule) == arguments[1..];
    }
  }

  /** A quoted argument cannot be mistaken for another, nor a command line for another. */
  lemma CommandLineInjective(a: seq<string>, b: seq<string>)
    requires CommandLine(a) == CommandLine(b)
    ensures a == b
  {
    CommandLineReadsBack(a, Closes);
    CommandLineReadsBack(b, Closes);
  }

  // ---- Terminated strings ------------------------------------------------------------------

  /** Windows reads a command line up to its first NUL. */
  function Terminated(s: string): string {
    if s == "" || s[0] == '\0' then "" else [s[0]] + Terminated(s[1..])
  }

  predicate NulFree(s: string) {
    '\0' !in s
  }

  lemma {:induction false} TerminatedKeeps(s: string)
    ensures NulFree(Terminated(s))
    ensures NulFree(s) ==> Terminated(s) == s
  {
    if s != "" && s[0] != '\0' {
      TerminatedKeeps(s[1..]);
    }
  }

  lemma {:induction false} ArgumentKeepsNulFree(s: string, quoted: bool, run: nat, rule: DoubledQuote)
    requires NulFree(s)
    ensures NulFree(Argument(s, quoted, run, rule).0) && NulFree(Argument(s, quoted, run, rule).1)
    decreases |s|
  {
    if s != "" {
      if s[0] == '\\' {
        ArgumentKeepsNulFree(s[1..], quoted, run + 1, rule);
      } else if s[0] == '"' && run % 2 == 0 {
        ArgumentKeepsNulFree(s[1..], !quoted, 0, rule);
        if |s| > 1 { ArgumentKeepsNulFree(s[2..], rule == Literal, 0, rule); }
      } else {
        ArgumentKeepsNulFree(s[1..], quoted, 0, rule);
      }
    }
  }

  lemma {:induction false} ArgumentsKeepNulFree(s: string, rule: DoubledQuote)
    requires NulFree(s)
    ensures forall a :: a in Arguments(s, rule) ==> NulFree(a)
    decreases |s|
  {
    if s != "" {
      if Blank(s[0]) {
        ArgumentsKeepNulFree(s[1..], rule);
      } else {
        ArgumentKeepsNulFree(s, false, 0, rule);
        ArgumentsKeepNulFree(Argument(s, false, 0, rule).1, rule);
      }
    }
  }

  lemma {:induction false} EscapedKeepsNulFree(s: string, pending: nat)
    requires NulFree(s)
    ensures NulFree(Escaped(s, pending))
    decreases |s|
  {
    if s != "" {
      EscapedKeepsNulFree(s[1..], if s[0] == '\\' then pending + 1 else 0);
    }
  }

  lemma {:induction false} CommandLineKeepsNulFree(arguments: seq<string>)
    requires forall a :: a in arguments ==> NulFree(a)
    ensures NulFree(CommandLine(arguments))
  {
    if arguments != [] {
      EscapedKeepsNulFree(arguments[0], 0);
      CommandLineKeepsNulFree(arguments[1..]);
    }
  }

  /** Passed as a terminated string, a command line is read back exactly when no argument holds a NUL. */
  lemma RoundTrip(arguments: seq<string>, rule: DoubledQuote)
    ensures Arguments(Terminated(CommandLine(arguments)), rule) == arguments
            <==> forall a :: a in arguments ==> NulFree(a)
  {
    var line := CommandLine(arguments);
    TerminatedKeeps(line);
    ArgumentsKeepNulFree(Terminated(line), rule);
    if forall a :: a in arguments ==> NulFree(a) {
      CommandLineKeepsNulFree(arguments);
      CommandLineReadsBack(arguments, rule);
    }
  }
}
