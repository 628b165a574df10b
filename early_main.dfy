/**
 * The earlier snapshot of the shell: one object holds the connection settings and
 * the commands, every command name is looked up on that object, `help` reads its
 * files from the working directory, and a connection that could not be opened ends
 * the program before the prompt.
 */
module EarlyMain {
  import opened Python
  import PyText
  import Channel
  import HelpFormat
  import Cli

  /** The command-line arguments; all three are required. */
  datatype Arguments = Arguments(host: string, username: string, password: string)

  /** What a command name denotes on the shell object. */
  datatype Attr =
    | QuitCommand            // leaves the program with status 0
    | HelpCommand
    | SelfDispatch           // `execute_command` itself, called with a list instead of a line
    | RejectsCall            // exists, but calling it with one list argument is a TypeError
    | ReturnsNotImplemented  // an inherited comparison hook: returns NotImplemented

  /**
   * The object's names that are not commands: the connection method and the
   * attributes `initiate_connection` assigns. The `deleteConnection` method sits
   * inside a string literal at module level, after the class ends, so the object
   * has no such name.
   */
  const NonCommandNames: set<string> := {
    "initiate_connection", "args", "hostName", "userName", "password", "connection"
  }

  /** `getattr(self, name)` on the shell object once it is connected. */
  function Attribute(name: string): Option<Attr>
  {
    if name == "quit" then Some(QuitCommand)
    else if name == "help" then Some(HelpCommand)
    else if name == "execute_command" then Some(SelfDispatch)
    else if name in NonCommandNames then Some(RejectsCall)
    else if name in NotImplementedAttributes then Some(ReturnsNotImplemented)
    else if name in ObjectAttributes then Some(RejectsCall)
    else None
  }

  /** The help file `help(args)` reads: the same names as the later shell, with no directory in front. */
  function HelpFile(args: seq<string>): string
  {
    HelpFormat.HelpPath("", args)
  }

  /** What executing one command line does: the reply and the lines printed. No command touches the connection. */
  function CommandOutcome(line: string, files: map<string, string>): (Reply, seq<string>)
  {
    var parts := Cli.Tokens(line);
    var name := parts[0];
    var args := parts[1..];
    match Attribute(name)
    case None => (Raised(ValueError(Cli.CommandNotFound)), [])
    case Some(QuitCommand) => (Terminate, [])
    case Some(HelpCommand) =>
      (match HelpFormat.HelpOutcome(files, HelpFile(args))
       case Success(page) => (Returned(NoneValue), page)
       case Failure(e) => (Raised(e), []))
    case Some(SelfDispatch) => (Raised(ValueError(Cli.CommandNotFound)), [])
    case Some(RejectsCall) => (Raised(CallRejected(name)), [])
    case Some(ReturnsNotImplemented) => (Returned(NotImplemented), [])
  }

  /** `help` and `quit` are looked up on the same object as every other name, and are found there. */
  lemma EveryNameOnOneObject()
    ensures Attribute("help") == Some(HelpCommand) && Attribute("quit") == Some(QuitCommand)
    ensures forall name :: Attribute(name).None? <==>
      name !in {"quit", "help", "execute_command"} + NonCommandNames + ObjectAttributes
  {
  }

  /** Only `quit` ends the program normally, whatever arguments follow it; no command raises the end-of-input error. */
  lemma QuitTerminates(line: string, files: map<string, string>)
    ensures CommandOutcome(line, files).0.Terminate? <==> Cli.Tokens(line)[0] == "quit"
    ensures CommandOutcome(line, files).0 != Raised(EndOfInput)
  {
  }

  /**
   * A name the object does not have, and `execute_command` typed as a command (its
   * inner call fails on a list and is converted as well), are reported as not found
   * and the prompt goes on.
   */
  lemma UnknownCommandReported(line: string, files: map<string, string>)
    requires Attribute(Cli.Tokens(line)[0]).None? || Cli.Tokens(line)[0] == "execute_command"
    ensures CommandOutcome(line, files) == (Raised(ValueError(Cli.CommandNotFound)), [])
    ensures Step(CommandOutcome(line, files).0) == Continue
  {
  }

  /**
   * `help` reads `command_list.txt` without arguments and `<first argument>_help.txt`
   * otherwise, from the working directory, and reports a missing file as an error the
   * prompt survives.
   */
  lemma HelpReadsPage(line: string, files: map<string, string>)
    requires Cli.Tokens(line)[0] == "help"
    ensures var args := Cli.Tokens(line)[1..]; var o := CommandOutcome(line, files);
      && HelpFile(args) == (if |args| == 0 then HelpFormat.CommandListFile else args[0] + HelpFormat.TopicSuffix)
      && HelpFormat.HelpTopic("", HelpFile(args)) == Some(if |args| == 0 then None else Some(args[0]))
      && (HelpFile(args) !in files ==>
            o == (Raised(FileNotFoundError(HelpFormat.MissingHelpFile)), []) && Step(o.0) == Continue)
      && (HelpFile(args) in files ==>
            o.1 == HelpFormat.HelpPage(PyText.ReadLines(PyText.UniversalNewlines(files[HelpFile(args)]))))
  {
    var args := Cli.Tokens(line)[1..];
    HelpFormat.HelpPathTopic("", args);
    assert "" + HelpFormat.CommandListFile == HelpFormat.CommandListFile;
    if |args| > 0 {
      assert "" + args[0] + HelpFormat.TopicSuffix == args[0] + HelpFormat.TopicSuffix;
    }
  }

  /** The shell object: its arguments, the settings it copies from them, and its connection, if one was opened. */
  class SFTP {
    const args: Arguments
    var hostName: string
    var userName: string
    var password: string
    var connection: Channel.Connection?

    constructor (args: Arguments)
      ensures this.args == args && connection == null
    {
      this.args := args;
      hostName, userName, password := "", "", "";
      connection := null;
    }

    /**
     * `initiate_connection()`: copy the settings, then connect with the password and
     * host-key checking off. Any failure is only reported, and leaves no connection.
     */
    method InitiateConnection(server: Channel.Server)
      modifies this
      ensures hostName == args.host && userName == args.username && password == args.password
      ensures connection != null <==> Channel.Admits(server, args.host, None, Channel.Password(args.password)).Success?
      ensures connection != null ==> fresh(connection) && connection.calls == [] && connection.state == server.files
    {
      hostName := args.host;
      userName := args.username;
      password := args.password;
      connection := null;
      var admitted := Channel.Admits(server, hostName, None, Channel.Password(password));
      if admitted.Success? {
        connection := new Channel.Connection(server);
      }
    }

    /** `help(args)`: print `command_list.txt`, or the help page of the first argument. */
    static method Help(args: seq<string>, files: map<string, string>) returns (r: Result<seq<string>, Exc>)
      ensures r == HelpFormat.HelpOutcome(files, HelpFile(args))
    {
      if |args| == 0 {
        r := HelpFormat.PrintHelp(files, HelpFormat.CommandListFile);
      } else {
        r := HelpFormat.PrintHelp(files, args[0] + HelpFormat.TopicSuffix);
      }
      assert "" + HelpFormat.CommandListFile == HelpFormat.CommandListFile;
      if |args| > 0 {
        assert "" + args[0] + HelpFormat.TopicSuffix == args[0] + HelpFormat.TopicSuffix;
      }
    }

    /** `execute_command(cmd)`: look the first word up on this object and call it with the rest. */
    method ExecuteCommand(cmd: string, files: map<string, string>) returns (reply: Reply, printed: seq<string>)
      ensures (reply, printed) == CommandOutcome(cmd, files)
    {
      var parts := PyText.Split(cmd, ' ');
      var attr := Attribute(parts[0]);
      printed := [];
      match attr
      case None =>
        reply := Raised(ValueError(Cli.CommandNotFound));
      case Some(QuitCommand) =>
        reply := Terminate;
      case Some(HelpCommand) =>
        var r := Help(parts[1..], files);
        if r.Success? {
          reply, printed := Returned(NoneValue), r.value;
        } else {
          reply := Raised(r.error);
        }
      case Some(SelfDispatch) =>
        reply := Raised(ValueError(Cli.CommandNotFound));
      case Some(RejectsCall) =>
        reply := Raised(CallRejected(parts[0]));
      case Some(ReturnsNotImplemented) =>
        reply := Returned(NotImplemented);
    }
  }

  /** The replies to a run of command lines, in order. */
  function Replies(lines: seq<string>, files: map<string, string>): (replies: seq<Reply>)
    ensures |replies| == |lines|
    decreases |lines|, 1
  {
    if lines == [] then [] else Extended(lines, files)
  }

  /** The replies to a run of at least one line: those to the shorter run, then the last line's. */
  function Extended(lines: seq<string>, files: map<string, string>): (replies: seq<Reply>)
    requires lines != []
    ensures |replies| == |lines|
    decreases |lines|, 0
  {
    Replies(lines[..|lines| - 1], files) + [CommandOutcome(lines[|lines| - 1], files).0]
  }

  /** The replies to one more line are those to the shorter run followed by that line's reply. */
  lemma RepliesStep(lines: seq<string>, files: map<string, string>)
    requires lines != []
    ensures Replies(lines, files) == Replies(lines[..|lines| - 1], files) + [CommandOutcome(lines[|lines| - 1], files).0]
  {
  }

  /** Each line's reply does not depend on the lines before it. */
  lemma {:induction false} RepliesPointwise(lines: seq<string>, files: map<string, string>)
    ensures forall k :: 0 <= k < |lines| ==> Replies(lines, files)[k] == CommandOutcome(lines[k], files).0
    decreases |lines|
  {
    if lines != [] {
      var init := lines[..|lines| - 1];
      RepliesStep(lines, files);
      RepliesPointwise(init, files);
      forall k | 0 <= k < |init|
        ensures Replies(lines, files)[k] == CommandOutcome(lines[k], files).0
      {
        assert lines[k] == init[k];
      }
    }
  }

  /** The last reply of a run asks to leave exactly when the last line is `quit`; the replies before it are the shorter run's. */
  lemma RepliesLast(lines: seq<string>, files: map<string, string>)
    requires lines != []
    ensures var replies := Replies(lines, files);
      && replies[..|lines| - 1] == Replies(lines[..|lines| - 1], files)
      && (replies[|lines| - 1].Terminate? <==> Cli.Tokens(lines[|lines| - 1])[0] == "quit")
      && replies[|lines| - 1] != Raised(EndOfInput)
  {
    RepliesStep(lines, files);
    QuitTerminates(lines[|lines| - 1], files);
  }

  /**
   * Where a prompt that answered the first lines of `inputs` with `replies` stops,
   * if it stopped because input ran out or because the last reply ends it: the
   * end-of-input error comes only once every line was read, and a normal exit only
   * after a `quit` line.
   */
  lemma RepliesExit(inputs: seq<string>, replies: seq<Reply>, files: map<string, string>)
    requires |replies| <= |inputs| && Replies(inputs[..|replies|], files) == replies
    requires |replies| == |inputs| || (replies != [] && !Step(replies[|replies| - 1]).Continue?)
    ensures Cli.PromptEnding(replies) == Crashed(EndOfInput) ==> |replies| == |inputs|
    ensures Cli.PromptEnding(replies).Exited? ==> |replies| > 0 && Cli.Tokens(inputs[|replies| - 1])[0] == "quit"
  {
    var n := |replies|;
    if n > 0 {
      RepliesLast(inputs[..n], files);
      assert inputs[..n][n - 1] == inputs[n - 1];
    }
    Cli.PromptExit(inputs, replies);
  }

  /** Execute the next input line: the replies grow by its reply. */
  method ExecuteNext(sftp: SFTP, inputs: seq<string>, i: nat, files: map<string, string>, ghost replies: seq<Reply>)
    returns (reply: Reply)
    requires i < |inputs| && replies == Replies(inputs[..i], files)
    ensures replies + [reply] == Replies(inputs[..i + 1], files)
  {
    var printed;
    reply, printed := sftp.ExecuteCommand(inputs[i], files);
    assert inputs[..i + 1][..i] == inputs[..i];
    RepliesStep(inputs[..i + 1], files);
  }

  /**
   * The prompt loop: it never ends by itself; `quit` leaves the program with status
   * 0, errors the prompt catches are reported, any other error escapes, and running
   * out of input ends it with the end-of-input error.
   */
  method RunPrompt(sftp: SFTP, inputs: seq<string>, files: map<string, string>)
    returns (outcome: ProcessOutcome, replies: seq<Reply>)
    ensures |replies| <= |inputs|
    ensures replies == Replies(inputs[..|replies|], files)
    ensures outcome == Cli.PromptEnding(replies)
    ensures outcome == Crashed(EndOfInput) ==> |replies| == |inputs|
    ensures forall k :: 0 <= k < |replies| - 1 ==> Step(replies[k]) == Continue
    ensures outcome.Exited? ==> |replies| > 0 && Cli.Tokens(inputs[|replies| - 1])[0] == "quit"
  {
    replies := [];
    while |replies| < |inputs| && (replies == [] || Step(replies[|replies| - 1]).Continue?)
      invariant |replies| <= |inputs|
      invariant replies == Replies(inputs[..|replies|], files)
      invariant forall k :: 0 <= k < |replies| - 1 ==> Step(replies[k]) == Continue
      decreases |inputs| - |replies|
    {
      var reply := ExecuteNext(sftp, inputs, |replies|, files, replies);
      replies := replies + [reply];
    }
    outcome := Cli.PromptEnding(replies);
    RepliesExit(inputs, replies, files);
  }

  /**
   * The program: connect, and when that failed leave with status 1 before any
   * prompt; otherwise run the prompt on the lines of standard input and end as it
   * does.
   */
  method RunProgram(args: Arguments, server: Channel.Server, inputs: seq<string>, files: map<string, string>)
    returns (outcome: ProcessOutcome, replies: seq<Reply>)
    ensures Channel.Admits(server, args.host, None, Channel.Password(args.password)).Failure? ==>
      outcome == Exited(1) && replies == []
    ensures Channel.Admits(server, args.host, None, Channel.Password(args.password)).Success? ==>
      && |replies| <= |inputs|
      && replies == Replies(inputs[..|replies|], files)
      && outcome == Cli.PromptEnding(replies)
      && (outcome == Crashed(EndOfInput) ==> |replies| == |inputs|)
      && (forall k :: 0 <= k < |replies| - 1 ==> Step(replies[k]) == Continue)
      && (outcome.Exited? ==> outcome.code == 0 && |replies| > 0 && Cli.Tokens(inputs[|replies| - 1])[0] == "quit")
  {
    var sftp := new SFTP(args);
    sftp.InitiateConnection(server);
    if sftp.connection == null {
      return Exited(1), [];
    }
    outcome, replies := RunPrompt(sftp, inputs, files);
    Cli.PromptEndingCases(replies);
  }
}
