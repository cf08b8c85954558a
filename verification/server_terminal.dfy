/** The server's command endpoint (server/routes/terminal.js): `POST /execute` takes
    `command` from the JSON body, answers 400 when it is missing, 403 when its first
    space-separated field is not on a fixed allowlist, and otherwise runs it in a shell
    and answers with its output, or 500 with the failure message.

    The shell run is not modelled: its outcome is a parameter. */
module ServerTerminal {
  import opened Common
  import opened Strings

  const AllowedCommands: seq<string> :=
    ["node", "npm", "ls", "pwd", "echo", "cat", "mkdir", "touch", "rm", "cp", "mv"]

  /** `s.split(' ')[0]`: the text before the first space, or all of `s`. */
  function FirstField(s: string): (f: string)
    ensures |f| <= |s| && s[..|f|] == f
    ensures ' ' !in f
    ensures |f| < |s| ==> s[|f|] == ' '
  {
    if s == [] || s[0] == ' ' then ""
    else [s[0]] + FirstField(s[1..])
  }

  /** `isCommandAllowed`: the first field must equal an allowlist name exactly. */
  predicate IsCommandAllowed(cmd: string) {
    FirstField(cmd) in AllowedCommands
  }

  /** `cmd` is the allowlist name `name` alone, or `name`, a space and anything. */
  predicate InvokesName(cmd: string, name: string) {
    cmd == name || StartsWith(cmd, name + " ")
  }

  lemma AllowlistHasNoSpaces(name: string)
    requires name in AllowedCommands
    ensures ' ' !in name
  {
  }

  /** A command is allowed exactly when it is an allowlist name alone or an allowlist
      name followed by a space and anything at all. */
  lemma AllowedIff(cmd: string)
    ensures IsCommandAllowed(cmd) <==> exists name :: name in AllowedCommands && InvokesName(cmd, name)
  {
    if IsCommandAllowed(cmd) {
      AllowedInvokesFirstField(cmd);
    }
    if exists name :: name in AllowedCommands && InvokesName(cmd, name) {
      var name :| name in AllowedCommands && InvokesName(cmd, name);
      AllowlistHasNoSpaces(name);
      FirstFieldOfPrefix(name, cmd);
    }
  }

  lemma AllowedInvokesFirstField(cmd: string)
    ensures InvokesName(cmd, FirstField(cmd))
  {
    var f := FirstField(cmd);
    if |f| < |cmd| {
      assert cmd[..|f + " "|] == f + " ";
    }
  }

  /** A space-free word that the line starts with, followed by a space or the end, is
      the line's first field. */
  lemma {:induction false} FirstFieldOfPrefix(name: string, cmd: string)
    requires ' ' !in name
    requires InvokesName(cmd, name)
    ensures FirstField(cmd) == name
    decreases |name|
  {
    if name == [] {
      assert cmd == [] || cmd[0] == ' ';
    } else {
      assert cmd[0] == name[0];
      if cmd != name {
        assert (name + " ")[1..] == name[1..] + " ";
        assert cmd[1..][..|name|] == cmd[..|name| + 1][1..];
      }
      FirstFieldOfPrefix(name[1..], cmd[1..]);
    }
  }

  /** Only the first field is checked: whatever follows an allowed name and a space
      passes, including further shell commands. */
  lemma OnlyFirstFieldChecked(name: string, rest: string)
    requires name in AllowedCommands
    ensures IsCommandAllowed(name + " " + rest)
  {
    assert ' ' !in name;
    assert (name + " " + rest)[..|name + " "|] == name + " ";
    FirstFieldOfPrefix(name, name + " " + rest);
  }

  /** "echo hi && whoami" passes the check. */
  lemma ChainedCommandPasses(cmd: string)
    requires cmd == "echo hi && whoami"
    ensures IsCommandAllowed(cmd)
  {
    assert cmd == "echo" + " " + "hi && whoami";
    OnlyFirstFieldChecked("echo", "hi && whoami");
  }

  /** A leading space makes the first field empty, and a tab is not a separator, so
      " ls" and "ls\t-a" are refused. */
  lemma SpaceAndTabRefused(a: string, b: string)
    requires a == " ls" && b == "ls\t-a"
    ensures !IsCommandAllowed(a) && !IsCommandAllowed(b)
  {
    assert FirstField(a) == "";
    assert FirstField(b) == b by {
      FirstFieldOfPrefix(b, b);
    }
  }

  /** `req.body.command`: absent or another falsy value, a string, or a truthy value
      that is not a string. */
  datatype CommandField = Missing | Text(s: string) | TruthyNonString

  /** What the route does before running anything. A truthy non-string makes
      `cmd.split` throw outside the `try`, so no response is sent. */
  datatype Decision = Refuse(status: int, error: string) | RunCommand(command: string) | NoResponse

  function Decide(field: CommandField): (d: Decision)
    ensures d == Refuse(400, "No command provided") <==> field.Missing? || field == Text("")
    ensures d == Refuse(403, "Command not allowed") <==>
              field.Text? && field.s != "" && !IsCommandAllowed(field.s)
    ensures d.RunCommand? <==> field.Text? && field.s != "" && IsCommandAllowed(field.s)
    ensures d.RunCommand? ==> d.command == field.s
    ensures d.NoResponse? <==> field.TruthyNonString?
  {
    match field
    case Missing => Refuse(400, "No command provided")
    case TruthyNonString => NoResponse
    case Text(s) =>
      if s == "" then Refuse(400, "No command provided")
      else if !IsCommandAllowed(s) then Refuse(403, "Command not allowed")
      else RunCommand(s)
  }

  /** How the shell run ended: with its two output streams, or with an error. */
  datatype ExecOutcome = Completed(stdout: string, stderr: string) | Failed(message: string)

  datatype Body = OutputBody(output: string) | ErrorBody(error: string)
  datatype Reply = Reply(status: int, body: Body)

  /** The reply after the run: stdout when it is not empty, else stderr; 500 on failure. */
  function Respond(outcome: ExecOutcome): (r: Reply)
    ensures outcome.Completed? && outcome.stdout != "" ==> r == Reply(200, OutputBody(outcome.stdout))
    ensures outcome.Completed? && outcome.stdout == "" ==> r == Reply(200, OutputBody(outcome.stderr))
    ensures outcome.Failed? ==> r == Reply(500, ErrorBody(outcome.message))
  {
    match outcome
    case Completed(out, err) => Reply(200, OutputBody(if out != "" then out else err))
    case Failed(msg) => Reply(500, ErrorBody(msg))
  }

  /** The whole route, given what the shell would do with the command. */
  function Route(field: CommandField, outcome: ExecOutcome): (r: Option<Reply>)
    ensures r.None? <==> field.TruthyNonString?
  {
    match Decide(field)
    case Refuse(status, error) => Some(Reply(status, ErrorBody(error)))
    case RunCommand(_) => Some(Respond(outcome))
    case NoResponse => None
  }

  /** The shell is reached only for an allowed command: for any other request the reply
      is the same whatever the shell would have done. */
  lemma ShellOnlyForAllowed(field: CommandField, o1: ExecOutcome, o2: ExecOutcome)
    requires !(field.Text? && field.s != "" && IsCommandAllowed(field.s))
    ensures Route(field, o1) == Route(field, o2)
    ensures field.Text? && field.s != "" ==> Route(field, o1) == Some(Reply(403, ErrorBody("Command not allowed")))
  {
  }

  /** An allowed command is answered by the shell run: 200 exactly when the run
      completed, with an output body, and then with some text the run printed (stdout
      when it printed any); 500 with the error otherwise. */
  lemma AllowedAnsweredByRun(cmd: string, outcome: ExecOutcome)
    requires cmd != "" && IsCommandAllowed(cmd)
    ensures Route(Text(cmd), outcome) == Some(Respond(outcome))
    ensures var r := Respond(outcome);
            (r.status == 200 <==> outcome.Completed?) && (r.status == 200 <==> r.body.OutputBody?) &&
            (r.status != 200 ==> r.status == 500)
    ensures outcome.Completed? ==>
              Respond(outcome).body.output in {outcome.stdout, outcome.stderr} &&
              (Respond(outcome).body.output == "" ==> outcome.stdout == "" && outcome.stderr == "")
  {
  }
}
