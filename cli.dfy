/**
 * The interactive shell: how a command line is split and dispatched, the shell's
 * own `help` and `quit` commands, the prompt loop's policy of going on or stopping
 * after each command, and how the whole program ends.
 */
module Cli {
  import opened Python
  import PyText
  import Channel
  import Client
  import HelpFormat

  const HelpFileLocation := "help_files/"
  const CommandNotFound := "Command not found, try 'help'"

  /** The commands the shell handles itself rather than the session. */
  const CliCommands: set<string> := {"help", "quit"}

  /** The words of a command line, split on single blanks; consecutive blanks give empty words. */
  function Tokens(line: string): (parts: seq<string>)
    ensures |parts| >= 1
  {
    PyText.Split(line, ' ')
  }

  /** Where a command name is looked up. */
  datatype Target = CliHelp | CliQuit | OnSession(attr: Client.Attr) | NotFound

  /** The shell's own commands first; every other name is looked up on the session. */
  function Resolve(name: string): Target
  {
    if name == "help" then CliHelp
    else if name == "quit" then CliQuit
    else match Client.Attribute(name)
      case Some(attr) => OnSession(attr)
      case None => NotFound
  }

  /** The effect of one command line: the reply, the remote calls made, the remote tree after it, and the lines printed. */
  datatype Outcome = Outcome(reply: Reply, calls: seq<Channel.Call>, state: Channel.RemoteState, printed: seq<string>)

  /** The help file a shell `help` command reads. */
  function HelpFile(args: seq<string>): string
  {
    HelpFormat.HelpPath(HelpFileLocation, args)
  }

  /** What executing the command line `line` does, on a remote tree `state` and the local files `files`. */
  function CommandOutcome(line: string, state: Channel.RemoteState, files: map<string, string>): Outcome
  {
    var parts := Tokens(line);
    var name := parts[0];
    var args := parts[1..];
    match Resolve(name)
    case CliHelp =>
      (match HelpFormat.HelpOutcome(files, HelpFile(args))
       case Success(page) => Outcome(Returned(NoneValue), [], state, page)
       case Failure(e) => Outcome(Raised(e), [], state, []))
    case CliQuit => Outcome(Terminate, [], state, [])
    case OnSession(attr) =>
      var e := Client.InvokeEffect(attr, name, args, state);
      Outcome(e.reply, e.calls, e.state, [])
    case NotFound => Outcome(Raised(ValueError(CommandNotFound)), [], state, [])
  }

  /**
   * A line is the command name and its arguments joined by single blanks: typing
   * `name a1 … an` runs `name` with exactly `[a1, …, an]` when no word holds a
   * blank, and splitting then rejoining a line gives the line back.
   */
  lemma TokensRoundTrip(name: string, args: seq<string>, line: string)
    requires ' ' !in name && forall i :: 0 <= i < |args| ==> ' ' !in args[i]
    ensures Tokens(PyText.Join([name] + args, ' ')) == [name] + args
    ensures PyText.Join(Tokens(line), ' ') == line
  {
    var words := [name] + args;
    forall i | 0 <= i < |words|
      ensures ' ' !in words[i]
    {
      if i > 0 {
        assert words[i] == args[i - 1];
      }
    }
    PyText.SplitJoin(words, ' ');
    PyText.JoinSplit(line, ' ');
  }

  /** `help` and `quit` never reach the session: they make no remote call and leave the tree as it was. */
  lemma CliCommandsStayLocal(line: string, state: Channel.RemoteState, files: map<string, string>)
    requires Tokens(line)[0] in CliCommands
    ensures CommandOutcome(line, state, files).calls == []
    ensures CommandOutcome(line, state, files).state == state
  {
  }

  /**
   * Only `quit` asks to leave the shell, whatever arguments follow it; and no command
   * raises the end-of-input error, which only reading the prompt does.
   */
  lemma QuitTerminates(line: string, state: Channel.RemoteState, files: map<string, string>)
    ensures CommandOutcome(line, state, files).reply.Terminate? <==> Tokens(line)[0] == "quit"
    ensures CommandOutcome(line, state, files).reply != Raised(EndOfInput)
  {
    var parts := Tokens(line);
    match Resolve(parts[0])
    case OnSession(attr) =>
      var e := Client.InvokeEffect(attr, parts[0], parts[1..], state);
      assert !e.reply.Terminate? && e.reply != Raised(EndOfInput);
    case _ =>
  }

  /**
   * A name that is neither a shell command nor an attribute of the session, the empty
   * name of a blank line included, is reported as not found and the prompt goes on.
   */
  lemma UnknownCommandReported(line: string, state: Channel.RemoteState, files: map<string, string>)
    requires Tokens(line)[0] !in CliCommands && Client.Attribute(Tokens(line)[0]).None?
    ensures CommandOutcome(line, state, files) == Outcome(Raised(ValueError(CommandNotFound)), [], state, [])
    ensures Step(CommandOutcome(line, state, files).reply) == Continue
  {
  }

  /** An empty line names no command. */
  lemma EmptyLineNotFound(state: Channel.RemoteState, files: map<string, string>)
    ensures CommandOutcome("", state, files).reply == Raised(ValueError(CommandNotFound))
  {
    assert Tokens("") == [""];
    assert "" !in Client.NonCommandNames + ObjectAttributes;
  }

  /**
   * `help` reads the command list without arguments and the first argument's page
   * otherwise, prints that file's page, and reports a missing file as an error the
   * prompt survives.
   */
  lemma HelpReadsPage(line: string, state: Channel.RemoteState, files: map<string, string>)
    requires Tokens(line)[0] == "help"
    ensures var args := Tokens(line)[1..]; var o := CommandOutcome(line, state, files);
      && HelpFormat.HelpTopic(HelpFileLocation, HelpFile(args)) == Some(if |args| == 0 then None else Some(args[0]))
      && (HelpFile(args) in files ==>
            o.reply == Returned(NoneValue)
            && o.printed == HelpFormat.HelpPage(PyText.ReadLines(PyText.UniversalNewlines(files[HelpFile(args)]))))
      && (HelpFile(args) !in files ==>
            o.reply == Raised(FileNotFoundError(HelpFormat.MissingHelpFile)) && Step(o.reply) == Continue)
  {
    HelpFormat.HelpPathTopic(HelpFileLocation, Tokens(line)[1..]);
  }

  /** How the prompt loop ends after the replies `replies`: at the first reply that stops it, or when input runs out. */
  function PromptEnding(replies: seq<Reply>): ProcessOutcome
  {
    if replies != [] && !Step(replies[|replies| - 1]).Continue? then Ending(Step(replies[|replies| - 1]))
    else Crashed(EndOfInput)
  }

  /**
   * The shell exits normally only after `quit`, and then with status 0; an uncaught
   * exception ends it with that exception; otherwise it ends when input runs out.
   */
  lemma PromptEndingCases(replies: seq<Reply>)
    ensures PromptEnding(replies).Exited? <==> replies != [] && replies[|replies| - 1].Terminate?
    ensures PromptEnding(replies).Exited? ==> PromptEnding(replies).code == 0
    ensures PromptEnding(replies).Crashed? && PromptEnding(replies).exc != EndOfInput ==>
      replies != [] && replies[|replies| - 1] == Raised(PromptEnding(replies).exc)
      && !CaughtByPrompt(PromptEnding(replies).exc)
  {
  }

  /** The shell: it owns the session. */
  class SFTPCLI {
    const sftp: Client.SFTP

    constructor (sftp: Client.SFTP)
      ensures this.sftp == sftp
    {
      this.sftp := sftp;
    }

    /** `help(args)`: print the command list, or the help page of the first argument. */
    static method Help(args: seq<string>, files: map<string, string>) returns (r: Result<seq<string>, Exc>)
      ensures r == HelpFormat.HelpOutcome(files, HelpFile(args))
    {
      if |args| == 0 {
        r := HelpFormat.PrintHelp(files, HelpFileLocation + HelpFormat.CommandListFile);
      } else {
        r := HelpFormat.PrintHelp(files, HelpFileLocation + args[0] + HelpFormat.TopicSuffix);
      }
    }

    /** `quit(args)`: a request to leave the shell, whatever the arguments. */
    static method Quit(args: seq<string>) returns (reply: Reply)
      ensures reply == Terminate
    {
      reply := Terminate;
    }

    /** `execute_command(cmd)`: split the line, and run its first word with the rest as arguments. */
    method ExecuteCommand(cmd: string, files: map<string, string>) returns (reply: Reply, printed: seq<string>)
      modifies sftp.connection
      ensures var o := CommandOutcome(cmd, old(sftp.connection.state), files);
        && reply == o.reply && printed == o.printed
        && sftp.connection.calls == old(sftp.connection.calls) + o.calls
        && sftp.connection.state == o.state
    {
      var parts := PyText.Split(cmd, ' ');
      printed := [];
      if parts[0] in CliCommands {
        if parts[0] == "help" {
          var r := Help(parts[1..], files);
          if r.Success? {
            reply, printed := Returned(NoneValue), r.value;
          } else {
            reply := Raised(r.error);
          }
        } else {
          reply := Quit(parts[1..]);
        }
      } else {
        var attr := Client.Attribute(parts[0]);
        if attr.None? {
          reply := Raised(ValueError(CommandNotFound));
        } else {
          reply := sftp.Invoke(attr.value, parts[0], parts[1..]);
        }
      }
    }
  }

  /** The replies to a run of command lines, each on the remote tree the previous ones left, and the tree after them. */
  datatype Transcript = Transcript(replies: seq<Reply>, state: Channel.RemoteState)

  /** Executing `lines` one after another, starting on the remote tree `start`. */
  function Session(lines: seq<string>, start: Channel.RemoteState, files: map<string, string>): (t: Transcript)
    ensures |t.replies| == |lines|
    decreases |lines|, 1
  {
    if lines == [] then Transcript([], start) else Extended(lines, start, files)
  }

  /** A session of at least one line: the shorter session, then its last line on the tree the shorter one left. */
  function Extended(lines: seq<string>, start: Channel.RemoteState, files: map<string, string>): (t: Transcript)
    requires lines != []
    ensures |t.replies| == |lines|
    decreases |lines|, 0
  {
    var before := Session(lines[..|lines| - 1], start, files);
    var o := CommandOutcome(lines[|lines| - 1], before.state, files);
    Transcript(before.replies + [o.reply], o.state)
  }

  /** A session of one more line is the shorter session followed by that line. */
  lemma SessionStep(lines: seq<string>, start: Channel.RemoteState, files: map<string, string>)
    requires lines != []
    ensures var before := Session(lines[..|lines| - 1], start, files);
      var o := CommandOutcome(lines[|lines| - 1], before.state, files);
      Session(lines, start, files) == Transcript(before.replies + [o.reply], o.state)
  {
  }

  /** The last reply of a session asks to leave exactly when the last line is `quit`; the replies before it are the shorter session's. */
  lemma SessionLast(lines: seq<string>, start: Channel.RemoteState, files: map<string, string>)
    requires lines != []
    ensures var replies := Session(lines, start, files).replies;
      && replies[..|lines| - 1] == Session(lines[..|lines| - 1], start, files).replies
      && (replies[|lines| - 1].Terminate? <==> Tokens(lines[|lines| - 1])[0] == "quit")
      && replies[|lines| - 1] != Raised(EndOfInput)
  {
    SessionStep(lines, start, files);
    var before := Session(lines[..|lines| - 1], start, files);
    QuitTerminates(lines[|lines| - 1], before.state, files);
  }

  /** The replies answer the lines one for one, and exactly the replies to `quit` lines ask to leave. */
  predicate QuitsExactly(lines: seq<string>, replies: seq<Reply>)
  {
    && |replies| == |lines|
    && forall k :: 0 <= k < |lines| ==> (replies[k].Terminate? <==> Tokens(lines[k])[0] == "quit")
  }

  /** One more line whose reply is a leave request exactly when it is `quit` keeps the correspondence. */
  lemma QuitsExactlySnoc(lines: seq<string>, replies: seq<Reply>, line: string, reply: Reply)
    requires QuitsExactly(lines, replies)
    requires reply.Terminate? <==> Tokens(line)[0] == "quit"
    ensures QuitsExactly(lines + [line], replies + [reply])
  {
    var lines', replies' := lines + [line], replies + [reply];
    forall k | 0 <= k < |lines'|
      ensures replies'[k].Terminate? <==> Tokens(lines'[k])[0] == "quit"
    {
      if k < |lines| {
        assert lines'[k] == lines[k] && replies'[k] == replies[k];
      }
    }
  }

  /** In any run of command lines, exactly the `quit` lines ask to leave the shell. */
  lemma {:induction false} SessionQuit(lines: seq<string>, start: Channel.RemoteState, files: map<string, string>)
    ensures QuitsExactly(lines, Session(lines, start, files).replies)
    decreases |lines|
  {
    if lines != [] {
      var init := lines[..|lines| - 1];
      var last := lines[|lines| - 1];
      SessionQuit(init, start, files);
      SessionLast(lines, start, files);
      var replies := Session(lines, start, files).replies;
      assert replies == replies[..|lines| - 1] + [replies[|lines| - 1]];
      QuitsExactlySnoc(init, replies[..|lines| - 1], last, replies[|lines| - 1]);
      assert init + [last] == lines;
    }
  }

  /** A run of lines that makes no call on any session attribute leaves the remote tree as it was. */
  lemma {:induction false} LocalSessionKeepsTree(lines: seq<string>, start: Channel.RemoteState, files: map<string, string>)
    requires forall k :: 0 <= k < |lines| ==> Tokens(lines[k])[0] in CliCommands
    ensures Session(lines, start, files).state == start
    decreases |lines|
  {
    if lines != [] {
      LocalSessionKeepsTree(lines[..|lines| - 1], start, files);
      CliCommandsStayLocal(lines[|lines| - 1], start, files);
    }
  }

  /** Execute the next input line: the session grows by that line. */
  method ExecuteNext(cli: SFTPCLI, inputs: seq<string>, i: nat, ghost start: Channel.RemoteState,
                     files: map<string, string>, ghost replies: seq<Reply>)
    returns (reply: Reply)
    requires i < |inputs|
    requires Session(inputs[..i], start, files) == Transcript(replies, cli.sftp.connection.state)
    modifies cli.sftp.connection
    ensures Session(inputs[..i + 1], start, files) == Transcript(replies + [reply], cli.sftp.connection.state)
  {
    var printed;
    reply, printed := cli.ExecuteCommand(inputs[i], files);
    assert inputs[..i + 1][..i] == inputs[..i];
    SessionStep(inputs[..i + 1], start, files);
  }

  /**
   * Where the prompt loop stops: when input ran out it crashes with the end-of-input
   * error, and it exits normally only after a `quit` line.
   */
  lemma PromptExit(inputs: seq<string>, replies: seq<Reply>)
    requires |replies| <= |inputs|
    requires |replies| == |inputs| || (replies != [] && !Step(replies[|replies| - 1]).Continue?)
    requires replies != [] ==> replies[|replies| - 1] != Raised(EndOfInput)
    requires replies != [] ==> (replies[|replies| - 1].Terminate? <==> Tokens(inputs[|replies| - 1])[0] == "quit")
    ensures PromptEnding(replies) == Crashed(EndOfInput) ==> |replies| == |inputs|
    ensures PromptEnding(replies).Exited? ==> |replies| > 0 && Tokens(inputs[|replies| - 1])[0] == "quit"
  {
  }

  /**
   * Where a prompt that ran the session `replies` on the first lines of `inputs`
   * stops, if it stopped because input ran out or because the last reply ends it:
   * the end-of-input error comes only once every line was read, and a normal exit
   * only after a `quit` line.
   */
  lemma SessionExit(inputs: seq<string>, replies: seq<Reply>, start: Channel.RemoteState, files: map<string, string>)
    requires |replies| <= |inputs| && Session(inputs[..|replies|], start, files).replies == replies
    requires |replies| == |inputs| || (replies != [] && !Step(replies[|replies| - 1]).Continue?)
    ensures PromptEnding(replies) == Crashed(EndOfInput) ==> |replies| == |inputs|
    ensures PromptEnding(replies).Exited? ==> |replies| > 0 && Tokens(inputs[|replies| - 1])[0] == "quit"
  {
    var n := |replies|;
    if n > 0 {
      SessionLast(inputs[..n], start, files);
      assert inputs[..n][n - 1] == inputs[n - 1];
    }
    PromptExit(inputs, replies);
  }

  /**
   * The prompt loop: read a line, execute it, and go on until `quit`; errors the
   * prompt catches are reported and the loop goes on, any other escapes it, and
   * running out of input ends it with the end-of-input error.
   */
  method RunPrompt(cli: SFTPCLI, inputs: seq<string>, files: map<string, string>)
    returns (outcome: ProcessOutcome, replies: seq<Reply>)
    modifies cli.sftp.connection
    ensures |replies| <= |inputs|
    ensures var t := Session(inputs[..|replies|], old(cli.sftp.connection.state), files);
      replies == t.replies && cli.sftp.connection.state == t.state
    ensures outcome == PromptEnding(replies)
    ensures outcome == Crashed(EndOfInput) ==> |replies| == |inputs|
    ensures forall k :: 0 <= k < |replies| - 1 ==> Step(replies[k]) == Continue
    ensures outcome.Exited? ==> |replies| > 0 && Tokens(inputs[|replies| - 1])[0] == "quit"
  {
    replies := [];
    ghost var start := cli.sftp.connection.state;
    while |replies| < |inputs| && (replies == [] || Step(replies[|replies| - 1]).Continue?)
      invariant |replies| <= |inputs|
      invariant Session(inputs[..|replies|], start, files) == Transcript(replies, cli.sftp.connection.state)
      invariant forall k :: 0 <= k < |replies| - 1 ==> Step(replies[k]) == Continue
      decreases |inputs| - |replies|
    {
      var reply := ExecuteNext(cli, inputs, |replies|, start, files, replies);
      replies := replies + [reply];
    }
    outcome := PromptEnding(replies);
    SessionExit(inputs, replies, start, files);
  }

  /** How the program ends when the session cannot be created: an SSH failure exits with status 1, any other error escapes. */
  function StartupFailure(e: ConnectError): (outcome: ProcessOutcome)
    ensures outcome == Exited(1) <==> IsSshException(e)
    ensures outcome.Crashed? <==> e.NameNotResolved?
    ensures outcome.Crashed? ==> outcome.exc == Connect(e)
  {
    if IsSshException(e) then Exited(1) else Crashed(Connect(e))
  }

  /**
   * How a failed connection attempt ends the program, by its cause: a host name that
   * does not resolve escapes as that error, while a refused TCP connect, a rejected
   * host key and a refused credential all exit with status 1.
   */
  lemma StartupFailureCauses(server: Channel.Server, host: string, known: map<string, Channel.HostKey>,
                             credential: Channel.Credential)
    requires Client.ConnectAttempt(server, host, known, credential).outcome.Failure?
    ensures var e := Client.ConnectAttempt(server, host, known, credential).outcome.error;
      && (!server.resolves ==> StartupFailure(e) == Crashed(Connect(NameNotResolved(host))))
      && (server.resolves ==> StartupFailure(e) == Exited(1))
      && (server.resolves && !server.listening ==> e == ConnectRefused(host))
  {
  }

  /**
   * The program: create the session (opening the connection), then run the prompt
   * on the lines of standard input. An SSH failure while connecting exits with 1,
   * before any line is read; after a successful connection the program runs the
   * session on the lines it reads, starting on the server's files, and ends as the
   * prompt does.
   */
  method RunProgram(hostname: string, username: string, password: Option<string>,
                    privateKeyPassword: Option<string>, home: string, keyFileExists: bool,
                    server: Channel.Server, store: Channel.KnownHosts,
                    inputs: seq<string>, files: map<string, string>)
    returns (outcome: ProcessOutcome, replies: seq<Reply>)
    modifies store
    ensures var c := Client.SelectCredential(password, privateKeyPassword, home, keyFileExists);
      c.Failure? ==> outcome == Exited(1) && replies == []
    ensures var c := Client.SelectCredential(password, privateKeyPassword, home, keyFileExists);
      c.Success? ==>
        var a := Client.ConnectAttempt(server, hostname, old(store.saved), c.value);
        && (a.outcome.Failure? ==> outcome == StartupFailure(a.outcome.error) && replies == [])
        && (a.outcome.Success? ==>
              && |replies| <= |inputs|
              && replies == Session(inputs[..|replies|], server.files, files).replies
              && outcome == PromptEnding(replies)
              && (outcome == Crashed(EndOfInput) ==> |replies| == |inputs|)
              && (forall k :: 0 <= k < |replies| - 1 ==> Step(replies[k]) == Continue)
              && (outcome.Exited? ==> outcome.code == 0 && |replies| > 0 && Tokens(inputs[|replies| - 1])[0] == "quit"))
  {
    var session := Client.Connect(hostname, username, password, privateKeyPassword, home, keyFileExists,
                                  server, store);
    if session.Failure? {
      return StartupFailure(session.error), [];
    }
    var cli := new SFTPCLI(session.value);
    outcome, replies := RunPrompt(cli, inputs, files);
    PromptEndingCases(replies);
  }
}
