/** Which invocations of the Shim start the Host Runtime, and which of those serve the default listener. */
module Arguments {
  import opened Wrappers
  import opened Sequences

  /** An argument that is not valid Unicode can be the value of an option but never an option. */
  datatype Argument = Utf8(text: string) | NonUtf8

  predicate IsText(args: seq<Argument>, i: nat) {
    i < |args| && args[i].Utf8?
  }

  /** An option of the set with its value attached by an equals sign. */
  predicate Attached(text: string, options: set<string>) {
    exists option | option in options :: option + "=" <= text
  }

  /** Attached is what splits into an option of the set, an equals sign and a value. */
  lemma AttachedExactly(text: string, options: set<string>)
    ensures Attached(text, options) <==> exists option, value :: option in options && text == option + "=" + value
  {
    if Attached(text, options) {
      var option :| option in options && option + "=" <= text;
      assert text == option + "=" + text[|option| + 1..];
    }
    if option, value :| option in options && text == option + "=" + value {
      assert option + "=" <= text;
    }
  }

  // ---- The subcommand ----------------------------------------------------------------------

  const GLOBAL_VALUE_OPTIONS := {
    "-c", "--config", "--enable", "--disable", "--remote", "--remote-auth-token-env", "-m", "--model",
    "--local-provider", "-p", "--profile", "-s", "--sandbox", "-C", "--cd"}

  const GLOBAL_FLAG_OPTIONS := {
    "--strict-config", "--oss", "--dangerously-bypass-approvals-and-sandbox", "--dangerously-bypass-hook-trust"}

  /** How many arguments a global option takes up; None when it is none, or lacks its value. */
  function GlobalStep(args: seq<Argument>, i: nat): Option<nat>
    requires IsText(args, i)
  {
    if args[i].text in GLOBAL_VALUE_OPTIONS then (if i + 1 < |args| then Some(2) else None)
    else if Attached(args[i].text, GLOBAL_VALUE_OPTIONS) || args[i].text in GLOBAL_FLAG_OPTIONS then Some(1)
    else None
  }

  /** Only global options stand between position `i` and the subcommand. */
  ghost predicate GlobalsUpTo(args: seq<Argument>, i: nat, j: nat)
    decreases |args| - i
  {
    i == j || (i < j && IsText(args, i) && args[i].text != "app-server" && GlobalStep(args, i).Some?
               && GlobalsUpTo(args, i + GlobalStep(args, i).value, j))
  }

  ghost predicate Subcommand(args: seq<Argument>, j: nat) {
    IsText(args, j) && args[j].text == "app-server" && GlobalsUpTo(args, 0, j)
  }

  lemma {:induction false} OneSubcommandFrom(args: seq<Argument>, i: nat, j: nat, k: nat)
    requires IsText(args, j) && args[j].text == "app-server" && GlobalsUpTo(args, i, j)
    requires IsText(args, k) && args[k].text == "app-server" && GlobalsUpTo(args, i, k)
    ensures j == k
    decreases |args| - i
  {
    hide GLOBAL_VALUE_OPTIONS, GLOBAL_FLAG_OPTIONS, Attached;
    if i < j && i < k {
      OneSubcommandFrom(args, i + GlobalStep(args, i).value, j, k);
    }
  }

  method AppServerSubcommandIndex(args: seq<Argument>) returns (r: Option<nat>)
    ensures r.Some? ==> Subcommand(args, r.value)
    ensures r.None? ==> forall j: nat :: !Subcommand(args, j)
  {
    hide GLOBAL_VALUE_OPTIONS, GLOBAL_FLAG_OPTIONS, Attached;
    var index := 0;
    while IsText(args, index)
      invariant forall j: nat :: IsText(args, j) && args[j].text == "app-server" ==>
                  (GlobalsUpTo(args, 0, j) <==> GlobalsUpTo(args, index, j))
      decreases |args| - index
    {
      var argument := args[index].text;
      if argument == "app-server" {
        return Some(index);
      }
      if argument in GLOBAL_VALUE_OPTIONS {
        if index + 1 >= |args| {
          return None;
        }
        index := index + 2;
        continue;
      }
      if Attached(argument, GLOBAL_VALUE_OPTIONS) || argument in GLOBAL_FLAG_OPTIONS {
        index := index + 1;
        continue;
      }
      return None;
    }
    return None;
  }

  // ---- The options of the subcommand -------------------------------------------------------

  const VALUE_OPTIONS := {
    "-c", "--config", "--enable", "--disable", "--listen", "--ws-auth", "--ws-token-file", "--ws-token-sha256",
    "--ws-shared-secret-file", "--ws-issuer", "--ws-audience", "--ws-max-clock-skew-seconds"}

  const FLAG_OPTIONS := {"--strict-config", "--stdio", "--analytics-default-enabled"}

  const LISTENER_VALUE_OPTIONS := {
    "-c", "--config", "--enable", "--disable", "--ws-auth", "--ws-token-file", "--ws-token-sha256",
    "--ws-shared-secret-file", "--ws-issuer", "--ws-audience", "--ws-max-clock-skew-seconds"}

  const LISTENER_FLAG_OPTIONS := {"--strict-config", "--analytics-default-enabled"}

  const LISTEN := "--listen"
  const LISTEN_IS := "--listen="
  const STDIO := "--stdio"
  const DEFAULT_LISTENER := "unix://"

  datatype Choice = Listen(value: Argument) | Stdio | Other

  /** The option at one place and how many arguments it takes up; None when it is unknown or lacks its value. */
  function OptionAt(args: seq<Argument>, i: nat): (r: Option<(Choice, nat)>)
    requires IsText(args, i)
    ensures r.Some? ==> r.value.1 > 0
  {
    var text := args[i].text;
    if text in VALUE_OPTIONS then
      if i + 1 >= |args| then None
      else Some((if text == LISTEN then Listen(args[i + 1]) else Other, 2))
    else if Attached(text, VALUE_OPTIONS) then
      Some((if LISTEN_IS <= text then Listen(Utf8(text[|LISTEN_IS|..])) else Other, 1))
    else if text in FLAG_OPTIONS then Some((if text == STDIO then Stdio else Other, 1))
    else None
  }

  /** The options from position `i` on; the walk ends at the end of the list or before an argument that
      is not valid Unicode. */
  function Walk(args: seq<Argument>, i: nat): Option<seq<Choice>>
    decreases |args| - i
  {
    if !IsText(args, i) then Some([])
    else match OptionAt(args, i)
      case None => None
      case Some(step) =>
        match Walk(args, i + step.1)
        case None => None
        case Some(rest) => Some([step.0] + rest)
  }

  ghost predicate WalksTo(args: seq<Argument>, choices: seq<Choice>) {
    exists j: nat :: Subcommand(args, j) && Walk(args, j + 1) == Some(choices)
  }

  /** No `--stdio`, and exactly one listener, which is the default one. */
  predicate DefaultListener(choices: seq<Choice>) {
    Stdio !in choices && Listeners(choices) == [Utf8(DEFAULT_LISTENER)]
  }

  function Listeners(choices: seq<Choice>): seq<Argument> {
    if choices == [] then []
    else (if choices[0].Listen? then [choices[0].value] else []) + Listeners(choices[1..])
  }

  /** The two parsers' tables differ in the listener and `--stdio`, and no option holds an equals sign. */
  lemma Tables(text: string)
    ensures VALUE_OPTIONS == LISTENER_VALUE_OPTIONS + {LISTEN} && FLAG_OPTIONS == LISTENER_FLAG_OPTIONS + {STDIO}
    ensures Attached(text, VALUE_OPTIONS) <==> Attached(text, LISTENER_VALUE_OPTIONS) || LISTEN_IS <= text
  {
    assert LISTEN + "=" == LISTEN_IS;
    assert LISTEN in VALUE_OPTIONS;
  }

  lemma AttachedHasEquals(text: string, options: set<string>)
    ensures Attached(text, options) ==> '=' in text
  {
    if Attached(text, options) {
      var option :| option in options && option + "=" <= text;
      assert text[|option|] == (option + "=")[|option|];
    }
  }

  lemma StdioIsAFlag()
    ensures STDIO !in VALUE_OPTIONS && !Attached(STDIO, VALUE_OPTIONS) && STDIO in FLAG_OPTIONS
  {
    AttachedHasEquals(STDIO, VALUE_OPTIONS);
  }

  lemma AttachedListenerIsNoOption(text: string)
    requires LISTEN_IS <= text
    ensures text !in VALUE_OPTIONS && text != STDIO && text != LISTEN
  {
    hide Attached;
    assert text[8] == LISTEN_IS[8] == '=';
  }

  /** How each parser's own tests sort an argument. */
  lemma SortsAlike(text: string)
    ensures text == STDIO ==> text !in VALUE_OPTIONS && !Attached(text, VALUE_OPTIONS) && text in FLAG_OPTIONS
    ensures LISTEN_IS <= text ==> text !in VALUE_OPTIONS && text != STDIO && text != LISTEN
    ensures text in VALUE_OPTIONS <==> text in LISTENER_VALUE_OPTIONS || text == LISTEN
    ensures text in FLAG_OPTIONS <==> text in LISTENER_FLAG_OPTIONS || text == STDIO
    ensures Attached(text, VALUE_OPTIONS) <==> Attached(text, LISTENER_VALUE_OPTIONS) || LISTEN_IS <= text
  {
    hide VALUE_OPTIONS, FLAG_OPTIONS, LISTENER_VALUE_OPTIONS, LISTENER_FLAG_OPTIONS, Attached;
    Tables(text);
    StdioIsAFlag();
    if LISTEN_IS <= text {
      AttachedListenerIsNoOption(text);
    }
  }

  // ---- Walking step by step ----------------------------------------------------------------

  function Prefixed(done: seq<Choice>, rest: Option<seq<Choice>>): Option<seq<Choice>> {
    match rest
    case None => None
    case Some(choices) => Some(done + choices)
  }

  /** `done` has been walked, and the rest of the walk starts at `i`. */
  ghost predicate Reached(args: seq<Argument>, start: nat, done: seq<Choice>, i: nat) {
    Walk(args, start) == Prefixed(done, Walk(args, i))
  }

  lemma Starts(args: seq<Argument>, start: nat)
    ensures Reached(args, start, [], start)
  {
    assert Walk(args, start).Some? ==> [] + Walk(args, start).value == Walk(args, start).value;
  }

  lemma Advances(args: seq<Argument>, start: nat, done: seq<Choice>, i: nat)
    requires Reached(args, start, done, i) && IsText(args, i)
    ensures OptionAt(args, i).None? ==> Walk(args, start).None?
    ensures OptionAt(args, i).Some? ==>
              Reached(args, start, done + [OptionAt(args, i).value.0], i + OptionAt(args, i).value.1)
  {
    hide OptionAt;
    if OptionAt(args, i).Some? {
      var step := OptionAt(args, i).value;
      var rest := Walk(args, i + step.1);
      assert Walk(args, i) == Prefixed([step.0], rest);
      if rest.Some? {
        Associates(done, [step.0], rest.value);
      }
    }
  }

  lemma {:induction false} ListenersOfTwo(a: seq<Choice>, b: seq<Choice>)
    ensures Listeners(a + b) == Listeners(a) + Listeners(b)
  {
    if a == [] {
      assert a + b == b;
    } else {
      assert (a + b)[0] == a[0] && (a + b)[1..] == a[1..] + b;
      ListenersOfTwo(a[1..], b);
      Associates(if a[0].Listen? then [a[0].value] else [], Listeners(a[1..]), Listeners(b));
    }
  }

  /** What has been seen of the listener and `--stdio` so far. */
  ghost predicate Summary(done: seq<Choice>, saw: bool) {
    Stdio !in done && Listeners(done) == if saw then [Utf8(DEFAULT_LISTENER)] else []
  }

  lemma SummaryGrows(done: seq<Choice>, saw: bool, c: Choice)
    requires Summary(done, saw)
    ensures c == Other ==> Summary(done + [c], saw)
    ensures c == Listen(Utf8(DEFAULT_LISTENER)) && !saw ==> Summary(done + [c], true)
  {
    ListenersOfTwo(done, [c]);
    assert [c][1..] == [];
  }

  /** Once `--stdio`, a second listener or another listener has been seen, the default is out of reach. */
  lemma Spoilt(done: seq<Choice>, saw: bool, c: Choice, rest: seq<Choice>)
    requires Summary(done, saw)
    requires c.Stdio? || (c.Listen? && (saw || c.value != Utf8(DEFAULT_LISTENER)))
    ensures !DefaultListener(done + ([c] + rest))
  {
    ListenersOfTwo(done, [c] + rest);
    assert ([c] + rest)[1..] == rest;
    assert ([c] + rest)[0] == c;
    var all := done + ([c] + rest);
    assert all[|done|] == c;
    if c.Listen? {
      var before, after := Listeners(done), Listeners(rest);
      assert Listeners(all) == before + ([c.value] + after);
      assert Listeners(all)[|before|] == c.value;
    }
  }

  ghost predicate Serves(args: seq<Argument>, start: nat) {
    Walk(args, start).Some? && DefaultListener(Walk(args, start).value)
  }

  lemma SpoiltAt(args: seq<Argument>, start: nat, done: seq<Choice>, i: nat, saw: bool)
    requires Reached(args, start, done, i) && Summary(done, saw) && IsText(args, i)
    requires OptionAt(args, i).None? || var c := OptionAt(args, i).value.0;
               c.Stdio? || (c.Listen? && (saw || c.value != Utf8(DEFAULT_LISTENER)))
    ensures !Serves(args, start)
  {
    hide OptionAt, Summary, DefaultListener;
    if OptionAt(args, i).Some? && Walk(args, i).Some? {
      var step := OptionAt(args, i).value;
      Spoilt(done, saw, step.0, Walk(args, i + step.1).value);
    }
  }

  /** What the option at one place means for the answer. */
  lemma Considers(args: seq<Argument>, start: nat, done: seq<Choice>, i: nat, saw: bool)
    requires Reached(args, start, done, i) && Summary(done, saw) && IsText(args, i)
    ensures OptionAt(args, i).None? ==> !Serves(args, start)
    ensures OptionAt(args, i).Some? ==>
              var step := OptionAt(args, i).value;
              if step.0.Stdio? || (step.0.Listen? && (saw || step.0.value != Utf8(DEFAULT_LISTENER))) then
                !Serves(args, start)
              else
                && Reached(args, start, done + [step.0], i + step.1)
                && Summary(done + [step.0], saw || step.0.Listen?)
  {
    hide OptionAt, Summary, DefaultListener, Reached, Walk;
    Advances(args, start, done, i);
    if OptionAt(args, i).Some? {
      var c := OptionAt(args, i).value.0;
      SummaryGrows(done, saw, c);
      if c.Stdio? || (c.Listen? && (saw || c.value != Utf8(DEFAULT_LISTENER))) {
        SpoiltAt(args, start, done, i, saw);
      }
    }
  }

  lemma Ends(args: seq<Argument>, start: nat, done: seq<Choice>, i: nat, saw: bool)
    requires Reached(args, start, done, i) && Summary(done, saw) && !IsText(args, i)
    ensures Serves(args, start) <==> saw
  {
    assert done + [] == done;
  }

  // ---- The two parsers ---------------------------------------------------------------------

  lemma OneSubcommand(args: seq<Argument>, j: nat, k: nat)
    requires Subcommand(args, j) && Subcommand(args, k)
    ensures j == k
  {
    OneSubcommandFrom(args, 0, j, k);
  }

  lemma WalksFromSubcommand(args: seq<Argument>, j: nat, choices: seq<Choice>)
    requires Subcommand(args, j)
    ensures WalksTo(args, choices) <==> Walk(args, j + 1) == Some(choices)
  {
    if WalksTo(args, choices) {
      var k: nat :| Subcommand(args, k) && Walk(args, k + 1) == Some(choices);
      OneSubcommand(args, j, k);
    }
  }

  method ShouldStartHostRuntime(args: seq<Argument>) returns (r: bool)
    ensures r <==> exists choices :: WalksTo(args, choices)
  {
    hide VALUE_OPTIONS, FLAG_OPTIONS, Attached, Subcommand;
    var subcommand := AppServerSubcommandIndex(args);
    if subcommand.None? {
      return false;
    }
    ghost var start := subcommand.value + 1;
    forall choices ensures WalksTo(args, choices) <==> Walk(args, start) == Some(choices) {
      WalksFromSubcommand(args, subcommand.value, choices);
    }
    var index := subcommand.value + 1;
    while IsText(args, index)
      invariant Walk(args, start).Some? <==> Walk(args, index).Some?
      decreases |args| - index
    {
      var argument := args[index].text;
      if argument in VALUE_OPTIONS {
        if index + 1 >= |args| {
          return false;
        }
        index := index + 2;
        continue;
      }
      if Attached(argument, VALUE_OPTIONS) || argument in FLAG_OPTIONS {
        index := index + 1;
        continue;
      }
      return false;
    }
    assert WalksTo(args, Walk(args, start).value);
    return true;
  }

  /** Parser agreement: the listener is the default one exactly when the Host Runtime is to be started
      and the options walked hold no `--stdio` and one listener, the default one. */
  method IsDefaultRemoteUnixListener(args: seq<Argument>) returns (r: bool)
    ensures r <==> exists choices :: WalksTo(args, choices) && DefaultListener(choices)
  {
    hide VALUE_OPTIONS, FLAG_OPTIONS, LISTENER_VALUE_OPTIONS, LISTENER_FLAG_OPTIONS, Attached, Subcommand,
         Reached, Summary, Walk, DefaultListener;
    var subcommand := AppServerSubcommandIndex(args);
    if subcommand.None? {
      return false;
    }
    var index := subcommand.value + 1;
    ghost var start := index;
    forall choices ensures WalksTo(args, choices) <==> Walk(args, start) == Some(choices) {
      WalksFromSubcommand(args, subcommand.value, choices);
    }
    var saw := false;
    ghost var done: seq<Choice> := [];
    Starts(args, start);
    NothingSeen();
    while IsText(args, index)
      invariant Reached(args, start, done, index) && Summary(done, saw)
      decreases |args| - index
    {
      var argument := args[index].text;
      SortsAlike(argument);
      Considers(args, start, done, index, saw);
      if OptionAt(args, index).Some? {
        done := done + [OptionAt(args, index).value.0];
      }
      if argument == STDIO {
        return false;
      }
      if argument == LISTEN {
        if !IsText(args, index + 1) {
          return false;
        }
        if saw || args[index + 1].text != DEFAULT_LISTENER {
          return false;
        }
        saw := true;
        index := index + 2;
        continue;
      }
      if LISTEN_IS <= argument {
        if saw || argument[|LISTEN_IS|..] != DEFAULT_LISTENER {
          return false;
        }
        saw := true;
        index := index + 1;
        continue;
      }
      if argument in LISTENER_VALUE_OPTIONS {
        if index + 1 >= |args| {
          return false;
        }
        index := index + 2;
        continue;
      }
      if Attached(argument, LISTENER_VALUE_OPTIONS) || argument in LISTENER_FLAG_OPTIONS {
        index := index + 1;
        continue;
      }
      return false;
    }
    Ends(args, start, done, index, saw);
    return saw;
  }

  lemma NothingSeen()
    ensures Summary([], false)
  {
  }
}
