/** The in-browser terminal's command interpreter (src/utils/terminalCommands.ts):
    a line is trimmed and split on whitespace runs, the first token lower-cased is
    looked up in a fixed table of ten handlers, and the handler's record comes back
    as a `CommandResult`. A handler that throws is turned into an error result.

    Every handler is called as `handler(args, context)`. The `clear`, `chat` and
    `exit` handlers destructure their context operation from their FIRST parameter,
    which is the argument array: the operation is `undefined`, calling it throws a
    TypeError, and the result is "Error executing command: ..." with no context
    operation performed. The model follows the code as written.

    The context operations a handler performs are returned as a trace of
    `ContextCall`s; whether the caller's `navigate` throws is part of the `Context`,
    and the clock text `date` prints is a parameter. */
module TerminalCommands {
  import opened Common
  import opened Strings

  datatype Tab = TerminalTab | ChatTab

  /** The record a handler returns: `output` and `error` may be absent; `isSystem`
      absent is modelled as false. */
  datatype CommandResult = CommandResult(output: Option<string>, error: Option<string>, isSystem: bool)

  /** The four capability operations of the caller's context. */
  datatype ContextCall = Navigate(path: string) | SetActiveTab(tab: Tab) | ClearHistory | CloseTerminal

  /** The caller's context, reduced to what can influence a result: whether its
      `navigate` throws, and what. */
  datatype Context = Context(navigateThrows: Option<Thrown>)

  datatype Command = Help | Clear | Pwd | Ls | Cd | Date | Echo | Open | Chat | Exit

  datatype ParsedLine = ParsedLine(name: string, args: seq<string>)

  /** How a handler call ended, and the context operations it performed on the way. */
  datatype HandlerOutcome = Returned(result: CommandResult) | Threw(thrown: Thrown)
  datatype HandlerRun = HandlerRun(outcome: HandlerOutcome, calls: seq<ContextCall>)

  /** What `executeCommand` returns, with the context operations it performed. */
  datatype Execution = Execution(result: CommandResult, calls: seq<ContextCall>)

  const HelpText: string :=
    "Available commands:\n  help     - Show this help message\n  clear    - Clear terminal\n  cd       - Change directory\n  ls       - List directory contents\n  open     - Open a page (e.g., open /courses)\n  chat     - Switch to chat mode\n  pwd      - Print working directory\n  echo     - Print text to terminal\n  date     - Show current date and time\n  exit     - Close terminal"

  const WorkingDirectory: string := "/home/project"

  const ListingText: string :=
    "src/\nnode_modules/\npublic/\nindex.html\npackage.json\ntsconfig.json\nvite.config.ts"

  /** A result with output and the system flag. */
  function SystemOutput(text: string): CommandResult {
    CommandResult(Some(text), None, true)
  }

  /** A result with only an error. */
  function ErrorResult(text: string): CommandResult {
    CommandResult(None, Some(text), false)
  }

  /** The key of each handler in the `commands` table. */
  function Name(c: Command): (n: string)
    ensures |n| >= 2
  {
    match c
    case Help => "help"
    case Clear => "clear"
    case Pwd => "pwd"
    case Ls => "ls"
    case Cd => "cd"
    case Date => "date"
    case Echo => "echo"
    case Open => "open"
    case Chat => "chat"
    case Exit => "exit"
  }

  /** `commands[name]` over the table's ten own keys: an exact, case-sensitive match. */
  function Lookup(name: string): (c: Option<Command>)
    ensures c.Some? ==> Name(c.value) == name
    ensures c.None? ==> forall k: Command :: Name(k) != name
  {
    if name == "help" then Some(Help)
    else if name == "clear" then Some(Clear)
    else if name == "pwd" then Some(Pwd)
    else if name == "ls" then Some(Ls)
    else if name == "cd" then Some(Cd)
    else if name == "date" then Some(Date)
    else if name == "echo" then Some(Echo)
    else if name == "open" then Some(Open)
    else if name == "chat" then Some(Chat)
    else if name == "exit" then Some(Exit)
    else None
  }

  /** Every handler is found under its own name: the table has no two handlers with one key. */
  lemma LookupName(c: Command)
    ensures Lookup(Name(c)) == Some(c)
  {
  }

  /** `input.trim().split(/\s+/)`, then the first token lower-cased and the rest. */
  function Parse(line: string): (p: ParsedLine)
    ensures Words(p.args)
    ensures Trim(line) != "" ==> p.name != "" && NoSpace(p.name)
  {
    var tokens := SplitOnSpaceRuns(Trim(line));
    if Trim(line) != "" then
      SplitTrimmedGivesWords(Trim(line));
      assert Words(tokens[1..]) by {
        forall i | 0 <= i < |tokens| - 1 ensures tokens[1..][i] == tokens[i + 1] { }
      }
      ParsedLine(ToLower(tokens[0]), tokens[1..])
    else
      assert tokens == [""];
      ParsedLine(ToLower(tokens[0]), tokens[1..])
  }

  /** A blank or whitespace-only line parses to the empty name and no arguments. */
  lemma ParseBlank(line: string)
    requires AllSpace(line)
    ensures Parse(line) == ParsedLine("", [])
  {
    assert Trim(line) == "";
    assert SplitOnSpaceRuns("") == [""];
  }

  /** Whatever whitespace surrounds and separates the words of a line, the name is the
      first word lower-cased and the arguments are the other words, in order and in
      their original case. */
  lemma ParseWords(pre: string, ws: seq<string>, seps: seq<string>, post: string)
    requires |ws| >= 1 && |seps| == |ws| - 1 && Words(ws) && SpaceRuns(seps)
    requires AllSpace(pre) && AllSpace(post)
    ensures Parse(pre + Interleave(ws, seps) + post) == ParsedLine(ToLower(ws[0]), ws[1..])
  {
    var body := Interleave(ws, seps);
    InterleaveEnds(ws, seps);
    TrimPadded(pre, body, post);
    SplitInterleaveRoundTrip(ws, seps);
  }

  lemma {:induction false} InterleaveEnds(ws: seq<string>, seps: seq<string>)
    requires |ws| >= 1 && |seps| == |ws| - 1 && Words(ws)
    ensures var s := Interleave(ws, seps);
            s != [] && s[0] == ws[0][0] && s[|s| - 1] == ws[|ws| - 1][|ws[|ws| - 1]| - 1]
    ensures var s := Interleave(ws, seps); !IsSpace(s[0]) && !IsSpace(s[|s| - 1])
  {
    if |ws| > 1 {
      InterleaveEnds(ws[1..], seps[1..]);
    }
  }

  /** The TypeError a call of an `undefined` binding raises (V8's wording). */
  function NotAFunction(binding: string): Thrown {
    ErrorObject(binding + " is not a function")
  }

  /** `commandFn(commandArgs, context)` for each handler of the table. */
  function RunHandler(c: Command, args: seq<string>, ctx: Context, clock: string): (run: HandlerRun)
    ensures |run.calls| <= 1
    ensures run.calls != [] ==> c == Open && |args| >= 1 && run.calls == [Navigate(args[0])]
    ensures run.outcome.Returned? ==> !(run.outcome.result.output.Some? && run.outcome.result.error.Some?)
  {
    match c
    case Help => HandlerRun(Returned(SystemOutput(HelpText)), [])
    // `({ clearHistory }: CommandContext)` receives the argument array
    case Clear => HandlerRun(Threw(NotAFunction("clearHistory")), [])
    case Pwd => HandlerRun(Returned(SystemOutput(WorkingDirectory)), [])
    case Ls => HandlerRun(Returned(SystemOutput(ListingText)), [])
    case Cd =>
      if |args| == 0 then HandlerRun(Returned(ErrorResult("cd: missing directory argument")), [])
      else HandlerRun(Returned(SystemOutput("Changed directory to " + args[0])), [])
    case Date => HandlerRun(Returned(SystemOutput(clock)), [])
    case Echo => HandlerRun(Returned(SystemOutput(Join(args, " "))), [])
    case Open =>
      if |args| == 0 then HandlerRun(Returned(ErrorResult("open: missing path argument")), [])
      else
        var outcome :=
          match ctx.navigateThrows
          case Some(t) => Threw(t)
          case None => Returned(SystemOutput("Navigating to " + args[0] + "..."));
        HandlerRun(outcome, [Navigate(args[0])])
    // `({ setActiveTab }: CommandContext)` receives the argument array
    case Chat => HandlerRun(Threw(NotAFunction("setActiveTab")), [])
    // `({ closeTerminal }: CommandContext)` receives the argument array
    case Exit => HandlerRun(Threw(NotAFunction("closeTerminal")), [])
  }

  function NotFoundMessage(name: string): string {
    "Command not found: " + name + ". Type 'help' for available commands."
  }

  function ExecutionErrorMessage(t: Thrown): string {
    "Error executing command: " + MessageOr(t, "Unknown error")
  }

  /** The part of `executeCommand` after parsing: table lookup and the handler call
      inside `try`/`catch`. */
  function Dispatch(p: ParsedLine, ctx: Context, clock: string): (e: Execution)
    ensures !(e.result.output.Some? && e.result.error.Some?)
    ensures |e.calls| <= 1
    ensures e.calls != [] ==> p.name == "open" && |p.args| >= 1 && e.calls == [Navigate(p.args[0])]
  {
    match Lookup(p.name)
    case None => Execution(ErrorResult(NotFoundMessage(p.name)), [])
    case Some(c) =>
      var run := RunHandler(c, p.args, ctx, clock);
      match run.outcome
      case Returned(r) => Execution(r, run.calls)
      case Threw(t) => Execution(ErrorResult(ExecutionErrorMessage(t)), run.calls)
  }

  /** `executeCommand(input, context)`. It is total: nothing escapes as an exception,
      no result carries both an output and an error, and the only context operation
      that can happen is one `navigate`, by `open`. */
  function Execute(line: string, ctx: Context, clock: string): (e: Execution)
    ensures !(e.result.output.Some? && e.result.error.Some?)
    ensures |e.calls| <= 1
    ensures forall call :: call in e.calls ==> call.Navigate?
    ensures e.calls != [] ==> Parse(line).name == "open" && |Parse(line).args| >= 1
                              && e.calls == [Navigate(Parse(line).args[0])]
  {
    Dispatch(Parse(line), ctx, clock)
  }

  /** A name outside the table gets the not-found error, naming the lower-cased token,
      and no context operation runs. */
  lemma UnknownCommand(p: ParsedLine, ctx: Context, clock: string)
    requires forall c: Command :: Name(c) != p.name
    ensures Dispatch(p, ctx, clock) ==
            Execution(CommandResult(None, Some("Command not found: " + p.name +
                                               ". Type 'help' for available commands."), false), [])
  {
  }

  /** A whitespace-only line takes the not-found path with the empty name. */
  lemma BlankLineNotFound(line: string, ctx: Context, clock: string)
    requires AllSpace(line)
    ensures Execute(line, ctx, clock) ==
            Execution(ErrorResult("Command not found: . Type 'help' for available commands."), [])
  {
    ParseBlank(line);
    UnknownCommand(Parse(line), ctx, clock);
    EmptyNameMessage("");
  }

  lemma EmptyNameMessage(name: string)
    requires name == ""
    ensures "Command not found: " + name + ". Type 'help' for available commands." ==
            "Command not found: . Type 'help' for available commands."
  {
  }

  /** `clear` always fails with a TypeError and never reaches the context: the history
      is not cleared. */
  lemma ClearThrows(p: ParsedLine, ctx: Context, clock: string)
    requires p.name == "clear"
    ensures Dispatch(p, ctx, clock) ==
            Execution(ErrorResult("Error executing command: clearHistory is not a function"), [])
  {
    LookupName(Clear);
    ClearHistoryMessage();
  }

  lemma ClearHistoryMessage()
    ensures ExecutionErrorMessage(NotAFunction("clearHistory")) ==
            "Error executing command: clearHistory is not a function"
  {
  }

  /** `chat` always fails with a TypeError: the tab is not switched. */
  lemma ChatThrows(p: ParsedLine, ctx: Context, clock: string)
    requires p.name == "chat"
    ensures Dispatch(p, ctx, clock) ==
            Execution(ErrorResult("Error executing command: setActiveTab is not a function"), [])
  {
    LookupName(Chat);
    SetActiveTabMessage();
  }

  lemma SetActiveTabMessage()
    ensures ExecutionErrorMessage(NotAFunction("setActiveTab")) ==
            "Error executing command: setActiveTab is not a function"
  {
  }

  /** `exit` always fails with a TypeError: the terminal stays open. */
  lemma ExitThrows(p: ParsedLine, ctx: Context, clock: string)
    requires p.name == "exit"
    ensures Dispatch(p, ctx, clock) ==
            Execution(ErrorResult("Error executing command: closeTerminal is not a function"), [])
  {
    LookupName(Exit);
    CloseTerminalMessage();
  }

  lemma CloseTerminalMessage()
    ensures ExecutionErrorMessage(NotAFunction("closeTerminal")) ==
            "Error executing command: closeTerminal is not a function"
  {
  }

  /** `cd` needs one argument, echoes only the first, and touches no context operation. */
  lemma CdCommand(p: ParsedLine, ctx: Context, clock: string)
    requires p.name == "cd"
    ensures Dispatch(p, ctx, clock) ==
            if p.args == [] then Execution(ErrorResult("cd: missing directory argument"), [])
            else Execution(CommandResult(Some("Changed directory to " + p.args[0]), None, true), [])
  {
    LookupName(Cd);
  }

  /** `open` without an argument fails without navigating; with one it navigates exactly
      once to the first argument, and reports the navigation unless `navigate` threw. */
  lemma OpenCommand(p: ParsedLine, ctx: Context, clock: string)
    requires p.name == "open"
    ensures var e := Dispatch(p, ctx, clock);
            && (p.args == [] ==> e == Execution(ErrorResult("open: missing path argument"), []))
            && (p.args != [] ==> e.calls == [Navigate(p.args[0])])
            && (p.args != [] && ctx.navigateThrows.None? ==>
                  e.result == CommandResult(Some("Navigating to " + p.args[0] + "..."), None, true))
            && (p.args != [] && ctx.navigateThrows.Some? ==>
                  e.result == ErrorResult("Error executing command: " +
                                          MessageOr(ctx.navigateThrows.value, "Unknown error")))
  {
    LookupName(Open);
  }

  /** `echo` prints its arguments joined by single spaces, whatever they are; no
      arguments print "". */
  lemma EchoCommand(p: ParsedLine, ctx: Context, clock: string)
    requires p.name == "echo"
    ensures Dispatch(p, ctx, clock) == Execution(CommandResult(Some(Join(p.args, " ")), None, true), [])
  {
    LookupName(Echo);
  }

  /** So however the words of an `echo` line were separated, each whitespace run
      becomes one space in the output. */
  lemma EchoCollapsesWhitespace(pre: string, ws: seq<string>, seps: seq<string>, post: string,
                                ctx: Context, clock: string)
    requires |ws| >= 1 && |seps| == |ws| - 1 && Words(ws) && SpaceRuns(seps)
    requires AllSpace(pre) && AllSpace(post) && ToLower(ws[0]) == "echo"
    ensures Execute(pre + Interleave(ws, seps) + post, ctx, clock) ==
            Execution(CommandResult(Some(Join(ws[1..], " ")), None, true), [])
  {
    var line := pre + Interleave(ws, seps) + post;
    ParseWords(pre, ws, seps, post);
    EchoCommand(Parse(line), ctx, clock);
  }

  /** The example `echo a  b   c` prints `a b c`. */
  lemma EchoExample(line: string, ctx: Context, clock: string)
    requires line == "echo a  b   c"
    ensures Execute(line, ctx, clock).result == CommandResult(Some("a b c"), None, true)
  {
    var ws, seps := ["echo", "a", "b", "c"], [" ", "  ", "   "];
    EchoExampleWords(line, ws, seps);
    EchoCollapsesWhitespace("", ws, seps, "", ctx, clock);
  }

  lemma EchoExampleWords(line: string, ws: seq<string>, seps: seq<string>)
    requires line == "echo a  b   c"
    requires ws == ["echo", "a", "b", "c"] && seps == [" ", "  ", "   "]
    ensures Words(ws) && SpaceRuns(seps) && ToLower(ws[0]) == "echo"
    ensures line == "" + Interleave(ws, seps) + ""
    ensures Join(ws[1..], " ") == "a b c"
  {
    assert ws[1..] == ["a", "b", "c"];
    assert ws[1..][1..][1..] == ["c"] && seps[1..][1..][1..] == [];
    assert Interleave(ws[1..][1..], seps[1..][1..]) == "b   c";
    assert Interleave(ws[1..], seps[1..]) == "a  b   c";
  }

  /** `help`, `pwd` and `ls` give fixed system output whatever the arguments, the context
      and the clock, so repeating them gives identical results. */
  lemma FixedOutputCommands(p1: ParsedLine, p2: ParsedLine, ctx1: Context, ctx2: Context,
                            clock1: string, clock2: string)
    requires p1.name in {"help", "pwd", "ls"} && p2.name == p1.name
    ensures Dispatch(p1, ctx1, clock1) == Dispatch(p2, ctx2, clock2)
    ensures p1.name == "pwd" ==> Dispatch(p1, ctx1, clock1).result == SystemOutput("/home/project")
    ensures Dispatch(p1, ctx1, clock1).result.isSystem
    ensures Dispatch(p1, ctx1, clock1).result.output.Some?
  {
    LookupName(Help);
    LookupName(Pwd);
    LookupName(Ls);
  }
}
