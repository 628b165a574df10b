/**
 * The SFTP session object: its command handlers `ls` and `chmod`, the connection
 * probes `ping` and `is_connected`, the choice of credential when a connection is
 * opened, the trust-on-first-use rule for host keys, and the attributes a command
 * name can resolve to on the session.
 */
module Client {
  import opened Python
  import PyText
  import Channel

  // ---------------------------------------------------------------- usage errors

  const LsUsagePrefix := "ls() takes exactly zero or one arguments ("
  const ChmodUsagePrefix := "chmod() takes exactly two arguments ("
  const UsageSuffix := " given)"

  /** The message of a usage error: the handler's fixed text with the number of arguments given. */
  function UsageMessage(prefix: string, count: nat): string
  {
    prefix + PyText.ShowNat(count) + UsageSuffix
  }

  /** The argument count a usage message reports, if it is one of the form `UsageMessage` builds. */
  function ReportedCount(prefix: string, message: string): Option<int>
  {
    if |prefix| + |UsageSuffix| <= |message| && message[..|prefix|] == prefix
       && message[|message| - |UsageSuffix|..] == UsageSuffix
    then PyText.ParseInt(message[|prefix|..|message| - |UsageSuffix|])
    else None
  }

  /** A usage message carries the number of arguments given, and it reads back exactly. */
  lemma UsageReportsCount(prefix: string, count: nat)
    requires |PyText.ShowNat(count)| <= PyText.MaxStrDigits
    ensures ReportedCount(prefix, UsageMessage(prefix, count)) == Some(count as int)
  {
    var m := UsageMessage(prefix, count);
    var digits := PyText.ShowNat(count);
    assert m[..|prefix|] == prefix;
    assert m[|m| - |UsageSuffix|..] == UsageSuffix;
    assert m[|prefix|..|m| - |UsageSuffix|] == digits;
    PyText.ParseShowNat(count);
  }

  // ---------------------------------------------------------------- ls and chmod

  /**
   * The `listdir` call `ls(args)` makes, as the optional path it passes: none for no
   * argument, the argument itself for one; more arguments are a usage error.
   */
  function LsRequest(args: seq<string>): (r: Result<Option<string>, Exc>)
    ensures r.Success? <==> |args| <= 1
    ensures r.Success? ==> (r.value.None? <==> |args| == 0) && (r.value.Some? ==> r.value.value == args[0])
    ensures r.Failure? ==> r.error == TypeError(UsageMessage(LsUsagePrefix, |args|))
  {
    if |args| == 0 then Success(None)
    else if |args| == 1 then Success(Some(args[0]))
    else Failure(TypeError(UsageMessage(LsUsagePrefix, |args|)))
  }

  /**
   * The `chmod` call `chmod(args)` makes: the path and the mode read as a base-10
   * integer. A count other than two is a usage error; a mode that is not an
   * integer literal is the ValueError of `int()`, raised before any call.
   */
  function ChmodRequest(args: seq<string>): (r: Result<Channel.Call, Exc>)
    ensures r.Success? ==> |args| == 2 && r.value.Chmod? && r.value.target == args[0]
    ensures r.Success? ==> PyText.ParseInt(args[1]) == Some(r.value.mode)
    ensures |args| != 2 ==> r == Failure(TypeError(UsageMessage(ChmodUsagePrefix, |args|)))
    ensures |args| == 2 && PyText.ParseInt(args[1]).None? ==> r == Failure(InvalidLiteral(args[1]))
  {
    if |args| == 2 then
      match PyText.ParseInt(args[1])
      case Some(mode) => Success(Channel.Chmod(args[0], mode))
      case None => Failure(InvalidLiteral(args[1]))
    else Failure(TypeError(UsageMessage(ChmodUsagePrefix, |args|)))
  }

  /** Whatever `int()` reads from the second of two arguments is the mode passed on, with the first as the path. */
  lemma ChmodParsedMode(path: string, text: string, mode: int)
    requires PyText.ParseInt(text) == Some(mode)
    ensures ChmodRequest([path, text]) == Success(Channel.Chmod(path, mode))
  {
    var args := [path, text];
    assert args[1] == text;
  }

  /** A mode written in decimal is passed on as that number. */
  lemma ChmodDecimalMode(path: string, mode: nat)
    requires |PyText.ShowNat(mode)| <= PyText.MaxStrDigits
    ensures ChmodRequest([path, PyText.ShowNat(mode)]) == Success(Channel.Chmod(path, mode))
  {
    PyText.ParseShowNat(mode);
    ChmodParsedMode(path, PyText.ShowNat(mode), mode);
  }

  // ---------------------------------------------------------------- probes

  /** What `is_connected()` answers on a remote tree: whether the current directory's listing is non-empty. */
  function ConnectedReply(state: Channel.RemoteState): Result<bool, Exc>
  {
    match Channel.ListReply(state, None)
    case Success(names) => Success(Channel.Truthy(names))
    case Failure(e) => Failure(Remote(e))
  }

  /** What `ping()` answers on a remote tree. */
  function PingReply(state: Channel.RemoteState): Result<string, Exc>
  {
    match Channel.ListReply(state, None)
    case Success(names) => Success(if Channel.Truthy(names) then "pong" else "nothing happened")
    case Failure(e) => Failure(Remote(e))
  }

  /**
   * `ping` and `is_connected` make the same test: ping answers "pong" exactly when
   * the session counts as connected, "nothing happened" exactly when it does not, and
   * both fail together with the same error.
   */
  lemma PingAgreesWithProbe(state: Channel.RemoteState)
    ensures PingReply(state) == Success("pong") <==> ConnectedReply(state) == Success(true)
    ensures PingReply(state) == Success("nothing happened") <==> ConnectedReply(state) == Success(false)
    ensures PingReply(state).Failure? <==> ConnectedReply(state).Failure?
    ensures PingReply(state).Failure? ==> PingReply(state).error == ConnectedReply(state).error
    ensures ConnectedReply(state).Success? <==>
      Channel.CurrentDirectory !in state.listRefusals && Channel.CurrentDirectory in state.listings
  {
  }

  // ---------------------------------------------------------------- credentials

  /** The private key used when no password is given. */
  function DefaultKeyPath(home: string): string
  {
    home + "/.ssh/id_rsa"
  }

  const NoAuthenticationMethods :=
    BadAuthenticationType("No supported authentication methods available", ["password", "public_key"])

  /**
   * The credential a connection presents, in priority order: the password if one is
   * given, else the default private key if that file exists (with the passphrase if
   * one is given), else no credential at all.
   */
  function SelectCredential(password: Option<string>, privateKeyPassword: Option<string>,
                            home: string, keyFileExists: bool): (r: Result<Channel.Credential, ConnectError>)
    ensures r.Failure? <==> password.None? && !keyFileExists
    ensures r.Failure? ==> r.error == NoAuthenticationMethods
    ensures r.Success? && r.value.Password? ==> password == Some(r.value.password)
    ensures r.Success? && r.value.PrivateKey? ==>
      password.None? && r.value.keyFile == DefaultKeyPath(home) && r.value.passphrase == privateKeyPassword
  {
    if password.Some? then Success(Channel.Password(password.value))
    else if keyFileExists then Success(Channel.PrivateKey(DefaultKeyPath(home), privateKeyPassword))
    else Failure(NoAuthenticationMethods)
  }

  /** The value of one keyword argument of the connection call. */
  datatype ArgValue = Text(text: string) | HostKeyOptions(hostKeys: Option<map<string, Channel.HostKey>>)

  /** The credential a set of connection arguments presents: a password wins over a private key. */
  function ArgsCredential(args: map<string, ArgValue>): Option<Channel.Credential>
  {
    if "password" in args && args["password"].Text? then Some(Channel.Password(args["password"].text))
    else if "private_key" in args && args["private_key"].Text? then
      var passphrase := if "private_key_pass" in args && args["private_key_pass"].Text?
                        then Some(args["private_key_pass"].text) else None;
      Some(Channel.PrivateKey(args["private_key"].text, passphrase))
    else None
  }

  /**
   * Build the keyword arguments of the connection call, one key at a time. With a
   * password, only the password is passed and the key and passphrase are ignored;
   * without one, the default key is passed if it exists, with the passphrase only
   * when one was given; with neither the attempt fails before any connection.
   */
  method BuildConnectArgs(hostname: string, username: string, hostKeys: Option<map<string, Channel.HostKey>>,
                          password: Option<string>, privateKeyPassword: Option<string>,
                          home: string, keyFileExists: bool)
    returns (r: Result<map<string, ArgValue>, ConnectError>)
    ensures var c := SelectCredential(password, privateKeyPassword, home, keyFileExists);
      && (r.Success? <==> c.Success?)
      && (r.Failure? ==> r.error == c.error)
      && (r.Success? ==> ArgsCredential(r.value) == Some(c.value))
    ensures r.Failure? <==> password.None? && !keyFileExists
    ensures r.Success? ==>
      && r.value.Keys == {"host", "username", "cnopts"}
                         + (if password.Some? then {"password"} else {"private_key"})
                         + (if password.None? && privateKeyPassword.Some? then {"private_key_pass"} else {})
      && r.value["host"] == Text(hostname)
      && r.value["username"] == Text(username)
      && r.value["cnopts"] == HostKeyOptions(hostKeys)
  {
    var args := map["host" := Text(hostname), "username" := Text(username), "cnopts" := HostKeyOptions(hostKeys)];
    var sshKey := DefaultKeyPath(home);
    if password.Some? {
      args := args["password" := Text(password.value)];
    } else if keyFileExists {
      args := args["private_key" := Text(sshKey)];
      if privateKeyPassword.Some? {
        args := args["private_key_pass" := Text(privateKeyPassword.value)];
      }
    } else {
      return Failure(NoAuthenticationMethods);
    }
    return Success(args);
  }

  // ---------------------------------------------------------------- host keys

  /** One connection attempt: its outcome, the host keys afterwards, and whether they were written to disk. */
  datatype Attempt = Attempt(outcome: Result<(), ConnectError>, recorded: map<string, Channel.HostKey>, saved: bool)

  /**
   * A connection attempt under trust on first use: a host with a recorded key is
   * checked against it; a host without one is admitted with any key, and that key
   * is recorded and saved once, only after the connection succeeded.
   */
  function ConnectAttempt(server: Channel.Server, host: string, known: map<string, Channel.HostKey>,
                          credential: Channel.Credential): (a: Attempt)
    ensures a.saved <==> host !in known && a.outcome.Success?
    ensures a.recorded == if a.saved then known[host := server.hostKey] else known
  {
    var firstContact := host !in known;
    var outcome := Channel.Admits(server, host, if firstContact then None else Some(known), credential);
    if outcome.Success? && firstContact then Attempt(outcome, known[host := server.hostKey], true)
    else Attempt(outcome, known, false)
  }

  /** A host seen for the first time is admitted whatever key it presents, and that key is recorded and saved. */
  lemma FirstContactRecordsKey(server: Channel.Server, host: string, known: map<string, Channel.HostKey>,
                               credential: Channel.Credential)
    requires host !in known && server.resolves && server.listening && credential in server.accepts
    ensures var a := ConnectAttempt(server, host, known, credential);
      a.outcome.Success? && a.saved && a.recorded == known[host := server.hostKey]
  {
  }

  /** A known host never causes a save, and the store is left as it was. */
  lemma KnownHostNeverSaved(server: Channel.Server, host: string, known: map<string, Channel.HostKey>,
                            credential: Channel.Credential)
    requires host in known
    ensures var a := ConnectAttempt(server, host, known, credential);
      !a.saved && a.recorded == known
  {
  }

  /** A known host that can be reached but presents a different key from the recorded one is refused. */
  lemma PinnedKeyEnforced(server: Channel.Server, host: string, known: map<string, Channel.HostKey>,
                          credential: Channel.Credential)
    requires host in known && known[host] != server.hostKey && server.resolves && server.listening
    ensures ConnectAttempt(server, host, known, credential).outcome == Failure(HostKeyRejected(host))
  {
  }

  /** A failed attempt records and saves nothing; recording only ever adds the attempted host. */
  lemma RecordingOnlyAddsHost(server: Channel.Server, host: string, known: map<string, Channel.HostKey>,
                              credential: Channel.Credential)
    ensures var a := ConnectAttempt(server, host, known, credential);
      && (a.outcome.Failure? ==> !a.saved && a.recorded == known)
      && a.recorded.Keys == known.Keys + (if a.saved then {host} else {})
      && (forall h :: h in known ==> a.recorded[h] == known[h])
  {
  }

  /**
   * Trust persists: after a successful attempt, the same server with the same
   * credential is admitted again, now with its key checked, and nothing more is saved.
   */
  lemma TrustPersists(server: Channel.Server, host: string, known: map<string, Channel.HostKey>,
                      credential: Channel.Credential)
    requires ConnectAttempt(server, host, known, credential).outcome.Success?
    ensures var a := ConnectAttempt(server, host, known, credential);
      var b := ConnectAttempt(server, host, a.recorded, credential);
      b.outcome.Success? && !b.saved && b.recorded == a.recorded
  {
    var a := ConnectAttempt(server, host, known, credential);
    assert host in a.recorded && a.recorded[host] == server.hostKey;
  }

  /**
   * Open the session's connection: load the known-hosts file, choose the credential,
   * disable host-key checking for a host the file does not know, connect, and on
   * first contact record and save the key the server presented.
   */
  method InitiateConnection(hostname: string, username: string, password: Option<string>,
                            privateKeyPassword: Option<string>, home: string, keyFileExists: bool,
                            server: Channel.Server, store: Channel.KnownHosts)
    returns (r: Result<Channel.Connection, ConnectError>)
    modifies store
    ensures var c := SelectCredential(password, privateKeyPassword, home, keyFileExists);
      c.Failure? ==> r == Failure(c.error) && store.entries == old(store.saved)
                     && store.saved == old(store.saved) && store.saves == old(store.saves)
    ensures var c := SelectCredential(password, privateKeyPassword, home, keyFileExists);
      c.Success? ==>
        var a := ConnectAttempt(server, hostname, old(store.saved), c.value);
        && (r.Success? <==> a.outcome.Success?)
        && (r.Failure? ==> r.error == a.outcome.error)
        && store.entries == a.recorded
        && store.saves == old(store.saves) + (if a.saved then 1 else 0)
        && store.saved == (if a.saved then a.recorded else old(store.saved))
    ensures r.Success? ==> fresh(r.value) && r.value.calls == [] && r.value.state == server.files
                           && r.value.remoteServerKey == server.hostKey
  {
    store.Load();
    var firstContact := hostname !in store.entries;
    var hostKeys: Option<map<string, Channel.HostKey>> := Some(store.entries);
    if firstContact {
      hostKeys := None;
    }
    var args := BuildConnectArgs(hostname, username, hostKeys, password, privateKeyPassword, home, keyFileExists);
    if args.Failure? {
      return Failure(args.error);
    }
    var credential := ArgsCredential(args.value).value;
    var admitted := Channel.Admits(server, hostname, hostKeys, credential);
    if admitted.Failure? {
      return Failure(admitted.error);
    }
    var connection := new Channel.Connection(server);
    if firstContact {
      store.Add(hostname, connection.remoteServerKey);
      store.Save();
    }
    return Success(connection);
  }

  // ---------------------------------------------------------------- the session object

  /** What a command name resolves to on the session object. */
  datatype Attr =
    | LsHandler
    | ChmodHandler
    | RejectsCall             // exists, but calling it with one list argument is a TypeError
    | ReturnsNotImplemented   // an inherited comparison hook: returns NotImplemented

  /**
   * Names on the session that are not commands: the methods that take no argument
   * list and the data attributes set by the constructor.
   */
  const NonCommandNames: set<string> := {
    "ping", "is_connected", "initiate_connection", "__del__",
    "hostname", "username", "password", "private_key_password", "local_directory", "connection"
  }

  /** `getattr(session, name)`: what the name denotes on the session, or nothing (an AttributeError). */
  function Attribute(name: string): Option<Attr>
  {
    if name == "ls" then Some(LsHandler)
    else if name == "chmod" then Some(ChmodHandler)
    else if name in NonCommandNames then Some(RejectsCall)
    else if name in NotImplementedAttributes then Some(ReturnsNotImplemented)
    else if name in ObjectAttributes then Some(RejectsCall)
    else None
  }

  /**
   * Only `ls` and `chmod` are command handlers; a name is missing exactly when it is
   * none of the session's own names and none of the names every object has.
   */
  lemma AttributeCases(name: string)
    ensures Attribute(name) == Some(LsHandler) <==> name == "ls"
    ensures Attribute(name) == Some(ChmodHandler) <==> name == "chmod"
    ensures Attribute(name).None? <==> name !in {"ls", "chmod"} + NonCommandNames + ObjectAttributes
  {
  }

  /** The effect of one call on the session: what it answers, the calls it makes on the channel, and the remote tree after it. */
  datatype Effect = Effect(reply: Reply, calls: seq<Channel.Call>, state: Channel.RemoteState)

  /** Calling the attribute `attr`, found under `name`, with the argument list `args`. */
  function InvokeEffect(attr: Attr, name: string, args: seq<string>, state: Channel.RemoteState): Effect
  {
    match attr
    case LsHandler =>
      (match LsRequest(args)
       case Failure(e) => Effect(Raised(e), [], state)
       case Success(path) =>
         var listing := Channel.ListReply(state, path);
         Effect(if listing.Success? then Returned(Names(listing.value)) else Raised(Remote(listing.error)),
                [Channel.ListDir(path)], state))
    case ChmodHandler =>
      (match ChmodRequest(args)
       case Failure(e) => Effect(Raised(e), [], state)
       case Success(call) =>
         var next := Channel.ChmodReply(state, call.target, call.mode);
         if next.Success? then Effect(Returned(NoneValue), [call], next.value)
         else Effect(Raised(Remote(next.error)), [call], state))
    case RejectsCall => Effect(Raised(CallRejected(name)), [], state)
    case ReturnsNotImplemented => Effect(Returned(NotImplemented), [], state)
  }

  /**
   * `ls`: with no or one argument it makes exactly one `listdir` call, with no path or
   * that argument, and leaves the tree alone. It returns the listing unchanged; a
   * missing directory is a FileNotFoundError the prompt catches, and a refused one an
   * error the prompt does not catch. With more arguments it raises the usage error and
   * makes no call at all.
   */
  lemma LsContract(args: seq<string>, state: Channel.RemoteState)
    ensures var e := InvokeEffect(LsHandler, "ls", args, state);
      && e.state == state
      && (|args| <= 1 ==>
            var path := if |args| == 0 then None else Some(args[0]);
            var p := if |args| == 0 then Channel.CurrentDirectory else args[0];
            && e.calls == [Channel.ListDir(path)]
            && (p !in state.listRefusals && p in state.listings ==> e.reply == Returned(Names(state.listings[p])))
            && (p in state.listRefusals ==>
                  e.reply == Raised(Remote(Channel.Refused(state.listRefusals[p], p))) && Step(e.reply).Abort?)
            && (p !in state.listRefusals && p !in state.listings ==>
                  e.reply == Raised(Remote(NoSuchFile(p))) && Step(e.reply) == Continue))
      && (|args| > 1 ==> e.calls == [] && e.reply == Raised(TypeError(UsageMessage(LsUsagePrefix, |args|))))
  {
  }

  /**
   * `chmod`: with two arguments whose second is an integer it makes exactly one
   * `chmod(path, mode)` call. It succeeds exactly when the server neither refuses the
   * path nor misses it, and then changes only that path's mode. A refusal is an error
   * the prompt does not catch, a missing path one it catches, and both leave the tree
   * as it was. Any other count, or a mode that is not an integer, makes no call and
   * leaves the tree as it was.
   */
  lemma ChmodContract(args: seq<string>, state: Channel.RemoteState)
    ensures var e := InvokeEffect(ChmodHandler, "chmod", args, state);
      && (|args| == 2 && PyText.ParseInt(args[1]).Some? ==>
            var path := args[0];
            var mode := PyText.ParseInt(args[1]).value;
            && e.calls == [Channel.Chmod(path, mode)]
            && (e.reply == Returned(NoneValue) <==> path !in state.chmodRefusals && path in state.modes)
            && (e.reply == Returned(NoneValue) ==>
                  e.state == state.(modes := state.modes[path := mode]))
            && (path in state.chmodRefusals ==>
                  && e.state == state
                  && e.reply == Raised(Remote(Channel.Refused(state.chmodRefusals[path], path)))
                  && Step(e.reply).Abort?)
            && (path !in state.chmodRefusals && path !in state.modes ==>
                  && e.state == state
                  && e.reply == Raised(Remote(NoSuchFile(path)))
                  && Step(e.reply) == Continue))
      && (|args| != 2 || PyText.ParseInt(args[1]).None? ==> e.calls == [] && e.state == state && e.reply.Raised?)
  {
  }

  /**
   * Only `chmod` changes the remote tree, and every call makes at most one remote
   * call. An exception the prompt does not catch leaves the tree as it was, and it
   * follows a remote call exactly when it is the server's refusal.
   */
  lemma OnlyChmodWrites(attr: Attr, name: string, args: seq<string>, state: Channel.RemoteState)
    ensures var e := InvokeEffect(attr, name, args, state);
      && |e.calls| <= 1
      && (attr != ChmodHandler ==> e.state == state)
      && (e.reply.Raised? && !CaughtByPrompt(e.reply.exc) ==>
            e.state == state && (e.calls == [] <==> !e.reply.exc.Remote?))
  {
  }

  /** The session object: its settings and the connection opened when it was created. */
  class SFTP {
    const hostname: string
    const username: string
    const password: Option<string>
    const privateKeyPassword: Option<string>
    const localDirectory: string
    const connection: Channel.Connection

    constructor (hostname: string, username: string, password: Option<string>,
                 privateKeyPassword: Option<string>, home: string, connection: Channel.Connection)
      ensures this.hostname == hostname && this.username == username && this.password == password
      ensures this.privateKeyPassword == privateKeyPassword && this.localDirectory == home
      ensures this.connection == connection
    {
      this.hostname := hostname;
      this.username := username;
      this.password := password;
      this.privateKeyPassword := privateKeyPassword;
      this.localDirectory := home;
      this.connection := connection;
    }

    /** `is_connected()`: one `listdir()` of the current directory; connected when it lists something. */
    method IsConnected() returns (r: Result<bool, Exc>)
      modifies connection
      ensures connection.calls == old(connection.calls) + [Channel.ListDir(None)]
      ensures connection.state == old(connection.state)
      ensures r == ConnectedReply(connection.state)
    {
      var names := connection.ListDir(None);
      if names.Failure? {
        return Failure(Remote(names.error));
      }
      return Success(if Channel.Truthy(names.value) then true else false);
    }

    /** `ping()`: one `listdir()` of the current directory; "pong" when it lists something. */
    method Ping() returns (r: Result<string, Exc>)
      modifies connection
      ensures connection.calls == old(connection.calls) + [Channel.ListDir(None)]
      ensures connection.state == old(connection.state)
      ensures r == PingReply(connection.state)
    {
      var names := connection.ListDir(None);
      if names.Failure? {
        return Failure(Remote(names.error));
      }
      return Success(if Channel.Truthy(names.value) then "pong" else "nothing happened");
    }

    /** `ls(args)`: list the remote directory named by the argument, or the current one. */
    method Ls(args: seq<string>) returns (r: Result<seq<string>, Exc>)
      modifies connection
      ensures var e := InvokeEffect(LsHandler, "ls", args, old(connection.state));
        && connection.calls == old(connection.calls) + e.calls
        && connection.state == e.state
        && (r.Success? <==> e.reply.Returned?)
        && (r.Success? ==> e.reply.value == Names(r.value))
        && (r.Failure? ==> e.reply == Raised(r.error))
    {
      if |args| == 0 {
        var names := connection.ListDir(None);
        r := if names.Success? then Success(names.value) else Failure(Remote(names.error));
      } else if |args| == 1 {
        var names := connection.ListDir(Some(args[0]));
        r := if names.Success? then Success(names.value) else Failure(Remote(names.error));
      } else {
        r := Failure(TypeError(UsageMessage(LsUsagePrefix, |args|)));
      }
    }

    /** `chmod(args)`: set the mode of the remote path `args[0]` to the integer `args[1]`. */
    method Chmod(args: seq<string>) returns (r: Result<(), Exc>)
      modifies connection
      ensures var e := InvokeEffect(ChmodHandler, "chmod", args, old(connection.state));
        && connection.calls == old(connection.calls) + e.calls
        && connection.state == e.state
        && (r.Success? <==> e.reply == Returned(NoneValue))
        && (r.Failure? ==> e.reply == Raised(r.error))
    {
      if |args| == 2 {
        var mode := PyText.ParseInt(args[1]);
        if mode.None? {
          return Failure(InvalidLiteral(args[1]));
        }
        var done := connection.Chmod(args[0], mode.value);
        r := if done.Success? then Success(()) else Failure(Remote(done.error));
      } else {
        r := Failure(TypeError(UsageMessage(ChmodUsagePrefix, |args|)));
      }
    }

    /** `getattr(self, name)(args)` for a name the session has. */
    method Invoke(attr: Attr, name: string, args: seq<string>) returns (reply: Reply)
      modifies connection
      ensures var e := InvokeEffect(attr, name, args, old(connection.state));
        && reply == e.reply
        && connection.calls == old(connection.calls) + e.calls
        && connection.state == e.state
    {
      match attr
      case LsHandler =>
        var r := Ls(args);
        reply := if r.Success? then Returned(Names(r.value)) else Raised(r.error);
      case ChmodHandler =>
        var r := Chmod(args);
        reply := if r.Success? then Returned(NoneValue) else Raised(r.error);
      case RejectsCall =>
        reply := Raised(CallRejected(name));
      case ReturnsNotImplemented =>
        reply := Returned(NotImplemented);
    }
  }

  /**
   * Create the session: its settings, then the connection. A failure to connect
   * leaves the constructor with the connection error.
   */
  method Connect(hostname: string, username: string, password: Option<string>,
                 privateKeyPassword: Option<string>, home: string, keyFileExists: bool,
                 server: Channel.Server, store: Channel.KnownHosts)
    returns (r: Result<SFTP, ConnectError>)
    modifies store
    ensures var c := SelectCredential(password, privateKeyPassword, home, keyFileExists);
      && (c.Failure? ==> r == Failure(c.error) && store.entries == old(store.saved)
                         && store.saved == old(store.saved) && store.saves == old(store.saves))
      && (c.Success? ==>
            var a := ConnectAttempt(server, hostname, old(store.saved), c.value);
            && (r.Success? <==> a.outcome.Success?)
            && (r.Failure? ==> r.error == a.outcome.error)
            && store.entries == a.recorded
            && store.saves == old(store.saves) + (if a.saved then 1 else 0)
            && store.saved == (if a.saved then a.recorded else old(store.saved)))
    ensures r.Success? ==> fresh(r.value) && fresh(r.value.connection)
                           && r.value.connection.calls == [] && r.value.connection.state == server.files
                           && r.value.connection.remoteServerKey == server.hostKey
    ensures r.Success? ==> r.value.hostname == hostname && r.value.username == username
                           && r.value.password == password && r.value.privateKeyPassword == privateKeyPassword
                           && r.value.localDirectory == home
  {
    var connection := InitiateConnection(hostname, username, password, privateKeyPassword, home,
                                         keyFileExists, server, store);
    if connection.Failure? {
      return Failure(connection.error);
    }
    var session := new SFTP(hostname, username, password, privateKeyPassword, home, connection.value);
    return Success(session);
  }
}
