# SFTP session shell: a Dafny model

This project models the core of a small interactive SFTP shell written in Python.
The user starts the program with a host, a user name and, optionally, a password or
a private-key passphrase. The program opens one SFTP session and then reads command
lines at a `> ` prompt until `quit`. Two snapshots of the shell are modelled.

- **The later shell.** This is `FTP_main.py` together with the session class in
  `SFTPClient/Client.py`.
  - The shell handles `help` and `quit` itself, and looks every other first word
    up on the session object (`ls`, `chmod`, and whatever else that object has).
  - The session chooses a credential when it connects: the password first, else the
    default private key `~/.ssh/id_rsa` if it exists, else none.
  - It trusts a host key on first use. An unknown host is admitted with whatever
    key it presents, and that key is recorded and saved. A known host must present
    the recorded key.
- **The earlier shell.** This is `src/FTP_main/FTP_main.py`. A single object holds
  the settings and the commands, every name is looked up on that object, and the
  program ends with status 1 when no connection could be opened.

The modules follow the program's structure:

| module | file | what it holds |
|---|---|---|
| `Python` | python.dfy | The exceptions the handlers raise, the values they return, and how the prompt reacts to each: go on, exit, or crash. Also the attribute names every Python object has. |
| `PyText` | py_text.dfy | The string operations the code relies on (`strip`, `split`, `'{:<35s}'` padding, `str(n)`, `int(s)`, reading a text file line by line), each with its round-trip laws. |
| `HelpFormat` | help_format.dfy | `print_help`, which both shells share: which file a `help` command reads, the two-column layout of each line, and which lines are printed. |
| `Channel` | channel.dfy | The remote side as the client sees it: a server that admits or refuses a connection, a connection object that records every call made on it, and the known-hosts store. |
| `Client` | client.dfy | The session class: `ls`, `chmod`, `ping`, `is_connected`, the choice of credential, the trust-on-first-use rule, and what a command name resolves to on the session. |
| `Cli` | cli.dfy | `FTP_main.py`: dispatching one line, `help`, `quit`, the prompt loop and how the program ends. |
| `EarlyMain` | early_main.dfy | `src/FTP_main/FTP_main.py`: the same for the earlier snapshot. |

Several parts of the world are inputs to the model rather than behaviour of it:

- The local file system is a map from path to text.
- Standard input is a sequence of lines. Running out of lines is the end-of-input
  error of `input()`.
- The console is the sequence of printed lines.
- The remote host is a `Channel.Server` value.
- Whether `~/.ssh/id_rsa` exists is a boolean parameter.

Some consequences of the code are easy to miss:

- A wrong argument count to `ls` or `chmod` raises a `TypeError`. The prompt catches
  only `ValueError` and `FileNotFoundError`, so the program ends.
  `Cli.RunPrompt` and `Python.Step` model this as written.
- `ping` and `is_connected` typed at the prompt end the program the same way. They
  take no argument list, so calling them with one is a `TypeError`.
- A refused remote request (a `PermissionError`, or another `OSError`) also ends the
  program. Only a missing remote path is a `FileNotFoundError`, which the prompt survives.
- Command names are looked up with `getattr`, so the model includes every attribute
  the session object has, including the ones inherited from `object`.

## Model

| member | source | states |
|---|---|---|
| `Python.Step` | FTP_main.py:44-59 | After one command the prompt stops with status 0 exactly on a leave request. An exception ends it exactly when it is not one the loop catches, and it is then that very exception. Everything else lets the loop go on. |
| `Python.IsSshException` | FTP_main.py:36-40 | Which connect failures `except paramiko.SSHException` catches: every one except a host name that does not resolve. A refused TCP connect is paramiko's "Unable to connect" `SSHException`, and so are a rejected host key, a refused credential and `BadAuthenticationType`. The name that does not resolve is pysftp's `ConnectionException`. |
| `Python.CaughtByPrompt` | FTP_main.py:54 | The exceptions `except (ValueError, FileNotFoundError)` catches: the ValueErrors (including `int()`'s) and the FileNotFoundErrors, among them a missing remote path. A refused remote request, a `TypeError`, a connect failure and the end of input are not caught. |
| `PyText.Strip` | FTP_main.py:107 | `strip()` gives the slice between the leading and the trailing whitespace. It is empty exactly when the string is all whitespace; otherwise it starts and ends with non-whitespace. |
| `PyText.IsSpace` | FTP_main.py:107 | The characters `str.strip()` and `str.isspace()` treat as whitespace: the ASCII controls 9 to 13 and 28 to 31, the blank, and the Unicode spaces and separators. |
| `PyText.StripRemovesSpace` | FTP_main.py:107 | What `strip()` cuts from either end is whitespace only. |
| `PyText.StripUnpadded` | FTP_main.py:107 | A string with no whitespace at either end is unchanged by `strip()`. |
| `PyText.Split` | FTP_main.py:84 | `split(sep)` always gives at least one piece, and no piece contains the separator. The first piece is the text before the first separator. There is exactly one piece iff the separator does not occur, and that piece is then the whole string. |
| `PyText.JoinSplit` | FTP_main.py:84 | Joining the pieces of a split with the same separator gives back the original string. |
| `PyText.SplitJoin` | FTP_main.py:84 | Splitting a join of separator-free pieces gives back exactly those pieces. |
| `PyText.LJust` | FTP_main.py:110 | Left-justifying pads to the width with blanks. It never truncates: a longer text is kept whole, and the text is always a prefix of the result. |
| `PyText.LJustBlank` | FTP_main.py:110-111 | A padded field is all whitespace exactly when the field is. |
| `PyText.ShowNat` | SFTPClient/Client.py:34 | `str(n)` is a non-empty run of decimal digits with no leading zero. |
| `PyText.DigitsValueShowNat` | SFTPClient/Client.py:34 | The digits `str(n)` writes denote `n`. |
| `PyText.ParseDigitText` | SFTPClient/Client.py:44 | `int()` reads a digit text (single underscores between digits allowed) as the number its digits denote when it has at most 4300 digits, and rejects it with a ValueError when it has more. |
| `PyText.ParseSignedDigitText` | SFTPClient/Client.py:44 | `int()` reads one sign followed by a digit text as the signed number when it has at most 4300 digits, and rejects it when it has more. |
| `PyText.ParseShowNat` | SFTPClient/Client.py:34 | `int(str(n)) == n` whenever `str(n)` itself succeeds, that is, has at most 4300 digits. |
| `PyText.ParseInt` | SFTPClient/Client.py:44 | `int(s)` in base 10: the whitespace `int()` skips is dropped from both ends, then one optional sign and a digit text of at most 4300 digits; anything else is a ValueError. Its value is stated by `ParseDigitText`, `ParseSignedDigitText`, `IntTrimPadded` and `SeparatorNotSkipped`. |
| `PyText.IsIntSpace` | SFTPClient/Client.py:44 | The characters `int()` skips around a literal: the `str.isspace()` set without the four information separators U+001C to U+001F. |
| `PyText.IntTrim` | SFTPClient/Client.py:44 | What `int()` parses is a slice of the text that neither starts nor ends with whitespace `int()` skips. It is empty exactly when the whole text is such whitespace. |
| `PyText.IntTrimRemovesSpace` | SFTPClient/Client.py:44 | What `int()` cuts from either end is whitespace it skips, and nothing else. |
| `PyText.IntTrimPadded` | SFTPClient/Client.py:44 | Skipped whitespace around an unpadded text changes nothing: `int(w1 + t + w2) == int(t)`, so `int(" 7 ") == 7`. |
| `PyText.IntTrimUnpadded` | SFTPClient/Client.py:44 | A text that does not start or end with skipped whitespace is parsed as it stands. |
| `PyText.SeparatorNotSkipped` | SFTPClient/Client.py:44 | U+001C is whitespace to `str.isspace()` but not to `int()`: a mode text that starts with it is a ValueError. |
| `PyText.UniversalNewlines` | FTP_main.py:105 | Text-mode reading leaves no carriage return, and changes nothing in a text that had none. Its translation is fixed by `UniversalNewlinesPrefix`, `UniversalNewlinesPair` and `UniversalNewlinesLoneReturn`. |
| `PyText.UniversalNewlinesPrefix` | FTP_main.py:105 | Text without a carriage return passes through unchanged, whatever follows it. |
| `PyText.UniversalNewlinesPair` | FTP_main.py:105 | Each `"\r\n"` becomes a single `"\n"`, and the translation goes on after it. |
| `PyText.UniversalNewlinesLoneReturn` | FTP_main.py:105 | A `"\r"` not followed by `"\n"` becomes a single `"\n"`, so `"a\rb"` is read as the two lines `"a\n"` and `"b"`. |
| `PyText.LineLength` | FTP_main.py:106 | `readline()` returns a non-empty line that contains no newline before its end, and ends with a newline unless it reaches the end of the text. |
| `PyText.ReadLines` | FTP_main.py:106 | The lines read until the first empty `readline()` are each non-empty. Each holds a newline only as its last character, and every line but the last ends with one. |
| `PyText.ConcatReadLines` | FTP_main.py:106 | Reading a text line by line loses and reorders nothing: the lines concatenate back to the text. |
| `HelpFormat.HelpPathTopic` | FTP_main.py:94-99 | A help path determines the request it came from. The command list is read only without arguments, and otherwise the page of exactly the first argument. Two topics never read the same file, and no topic reads the command list. |
| `HelpFormat.HelpPath` | FTP_main.py:94-99 | The file a `help` command reads. Stated by `HelpPathTopic`. |
| `HelpFormat.PadField` | FTP_main.py:110 | A field is padded to 35 columns and never truncated. |
| `HelpFormat.KeptFields` | FTP_main.py:107-109 | One or two fields are kept. They are the first `@`-separated pieces of the stripped line, and there is a single field exactly when the line has no `@`. |
| `HelpFormat.FormatLineFields` | FTP_main.py:108-110 | A formatted line is its kept fields, each padded, side by side. |
| `HelpFormat.FormatLineLayout` | FTP_main.py:108-110 | The first field starts in column 0, and the line is at least 35 columns wide. When the first field fits in 35 columns, the second starts exactly at column 35. Nothing of either field is cut off. |
| `HelpFormat.FormatLine` | FTP_main.py:107-110 | The printed text of one help-file line. Stated by `FormatLineFields`, `FormatLineLayout` and `FormatHelpLine`. |
| `HelpFormat.Shown` | FTP_main.py:111-112 | The test `len(line_output.strip()) > 0`: the formatted line is not all whitespace. Stated by `ShownIffVisibleField`, `LeadingTextShown` and `BlankLineHidden`. |
| `HelpFormat.Printed` | FTP_main.py:111-112 | What one file line prints: its formatted text when it is shown, nothing otherwise. Stated by `HelpPageOfLine` and `PrintLine`. |
| `HelpFormat.ShownIffVisibleField` | FTP_main.py:111-112 | A help line is printed iff one of its kept fields is not all whitespace. |
| `HelpFormat.LeadingTextShown` | FTP_main.py:107-112 | A line whose stripped text is non-empty and does not start with `@` is always printed. |
| `HelpFormat.BlankLineHidden` | FTP_main.py:107-112 | A blank line is never printed. |
| `HelpFormat.FlatMapAppend` | FTP_main.py:106-112 | The output for two runs of lines is the first run's output followed by the second's. |
| `HelpFormat.HelpPageAppend` | FTP_main.py:106-112 | The page printed for two runs of file lines is the page of the first followed by the page of the second. |
| `HelpFormat.HelpPageVisible` | FTP_main.py:106-112 | No more lines are printed than the file has, and no printed line is blank. |
| `HelpFormat.HelpPageOfLine` | FTP_main.py:107-112 | A single file line contributes its formatted text exactly when it is shown. |
| `HelpFormat.HelpPage` | FTP_main.py:106-112 | What is printed for a help file's lines. Stated by `HelpPageAppend`, `HelpPageVisible`, `HelpPageOfLine` and `PrintHelp`. |
| `HelpFormat.HelpOutcome` | FTP_main.py:101-114 | The page of an existing file, or the "Missing help file" FileNotFoundError. Stated by `PrintHelp`. |
| `HelpFormat.FormatHelpLine` | FTP_main.py:107-110 | The loop over the first two fields builds the formatted line. |
| `HelpFormat.PrintLine` | FTP_main.py:107-112 | Formatting a line and testing it with `strip()` prints exactly what the line contributes to the page. |
| `HelpFormat.PrintNext` | FTP_main.py:106-112 | Handling one more file line extends the printed page by that line's contribution. |
| `HelpFormat.PrintHelp` | FTP_main.py:101-114 | A missing file raises `FileNotFoundError("Missing help file")`. Otherwise it prints the page of the file's lines in file order. |
| `Channel.Admits` | SFTPClient/Client.py:93-97 | A connection succeeds iff the host name resolves, a TCP connection can be opened, the presented key is the recorded one whenever host-key checking is on, and the credential is accepted. A name that does not resolve is reported as such, and a resolved host that cannot be connected to as a refused connect. A host-key rejection can only happen with checking on. |
| `Channel.ListReply` | SFTPClient/Client.py:20-32 | `listdir(path)`, with the current directory when no path is given, succeeds iff the server neither refuses the request nor misses the directory, and then answers that directory's listing. A refusal reports the refusal, and a missing directory reports that it is missing. |
| `Channel.ChmodReply` | SFTPClient/Client.py:44 | `chmod` on a remote path succeeds iff the server neither refuses the request nor misses the path. It then changes that path's mode to the given one and nothing else in the tree. A refusal reports the refusal (denied or failed), and a missing path reports that it is missing. |
| `Channel.Connection.constructor` | SFTPClient/Client.py:94 | A new connection has made no call yet, sees the server's files, and carries the key the server presented. |
| `Channel.Connection.ListDir` | SFTPClient/Client.py:20 | `listdir(path)` is recorded as one call, answers from the tree, and leaves the tree unchanged. |
| `Channel.Connection.Chmod` | SFTPClient/Client.py:44 | `chmod(path, mode)` is recorded as one call, changes the tree as `ChmodReply` says, and leaves it unchanged on error. |
| `Channel.KnownHosts.constructor` | SFTPClient/Client.py:63 | The store is loaded from the known-hosts file: memory and disk agree, and nothing has been written yet. |
| `Channel.KnownHosts.Load` | SFTPClient/Client.py:63 | New connection options read the known-hosts file afresh: memory becomes what is on disk, and nothing is written. |
| `Channel.KnownHosts.Add` | SFTPClient/Client.py:102-103 | Adding a key changes the in-memory store for that host only. It writes nothing to disk. |
| `Channel.KnownHosts.Save` | SFTPClient/Client.py:104 | Saving writes the in-memory store to disk and counts one write. |
| `Client.UsageMessage` | SFTPClient/Client.py:34 | The text of the usage `TypeError` of `ls` (line 34) and `chmod` (line 46): the fixed text, the argument count and " given)". Stated by `UsageReportsCount`. |
| `Client.UsageReportsCount` | SFTPClient/Client.py:34 | The usage message of `ls` or `chmod` carries the number of arguments given, and that number reads back exactly. |
| `Client.ChmodRequest` | SFTPClient/Client.py:43-46 | `chmod` calls the remote side only with exactly two arguments whose second parses as an integer. A wrong count raises the usage `TypeError` with the count given. A non-integer mode raises `int()`'s `ValueError`, before any remote call. |
| `Client.LsRequest` | SFTPClient/Client.py:29-34 | `ls` lists the current directory for no argument and the argument itself for one. More arguments are the usage `TypeError` reporting the count. |
| `Client.ChmodParsedMode` | SFTPClient/Client.py:44 | Whatever `int()` reads from the second of two arguments is the mode passed on, with the first argument as the path. |
| `Client.ChmodDecimalMode` | SFTPClient/Client.py:44 | A mode written in decimal is passed on as that number. |
| `Client.ConnectedReply` | SFTPClient/Client.py:18-20 | What `is_connected()` answers: true iff the current directory's listing is non-empty, or the listing's error. Stated by `PingAgreesWithProbe` and `SFTP.IsConnected`. |
| `Client.PingReply` | SFTPClient/Client.py:23-24 | What `ping()` answers: "pong" for a non-empty listing of the current directory, "nothing happened" for an empty one, or the listing's error. Stated by `PingAgreesWithProbe` and `SFTP.Ping`. |
| `Client.PingAgreesWithProbe` | SFTPClient/Client.py:18-24 | `ping` answers "pong" exactly when `is_connected` answers true, and "nothing happened" exactly when it answers false. Both fail together with the same error, and they fail exactly when the current remote directory is refused or missing. |
| `Client.BuildConnectArgs` | SFTPClient/Client.py:69-89 | The connection arguments present the password when one is given. Otherwise they present the default key when it exists, with the passphrase only if one was given. With neither, the attempt fails with `BadAuthenticationType` before any connection. `host`, `username` and the host-key options are always passed. |
| `Client.DefaultKeyPath` | SFTPClient/Client.py:74 | The default private key is `.ssh/id_rsa` under the home directory. Stated by `SelectCredential` and `BuildConnectArgs`. |
| `Client.SelectCredential` | SFTPClient/Client.py:73-89 | No credential exists exactly when there is no password and no default key. Then the error is the `BadAuthenticationType` for password and public key. A password is presented whenever one is given. The default key is presented only without a password, and then with exactly the passphrase given, if any. |
| `Client.ConnectAttempt` | SFTPClient/Client.py:62-104 | An attempt saves exactly when the host was unknown and the connection succeeded. The hosts recorded afterwards are the known ones, plus that host with the key it presented when it saved. |
| `Client.FirstContactRecordsKey` | SFTPClient/Client.py:62-67 | A host seen for the first time is admitted whatever key it presents, and that key is recorded and saved. |
| `Client.KnownHostNeverSaved` | SFTPClient/Client.py:99-104 | A connection to a known host never writes the known-hosts file and leaves the store as it was. |
| `Client.PinnedKeyEnforced` | SFTPClient/Client.py:62-71 | A known host that resolves and accepts a TCP connection, but presents a different key from the recorded one, is refused with a host-key error. |
| `Client.RecordingOnlyAddsHost` | SFTPClient/Client.py:93-104 | A failed attempt records and saves nothing. Recording only ever adds the attempted host and never changes another host's key. |
| `Client.TrustPersists` | SFTPClient/Client.py:62-104 | After a successful first contact the same server is admitted again, now with its key checked, and nothing more is saved. |
| `Client.InitiateConnection` | SFTPClient/Client.py:56-106 | Opening the connection reads the known-hosts file afresh and chooses the credential. Host-key checking is off exactly for a host the file does not know. It then connects, and on first contact it adds and saves the key the server presented. Its outcome and the store afterwards are those of `ConnectAttempt` on the file as it was on disk. |
| `Client.AttributeCases` | SFTPClient/Client.py:9-56 | Only `ls` and `chmod` are command handlers on the session. A name is missing exactly when it is none of the session's own names and none of the names every object has. |
| `Client.Attribute` | SFTPClient/Client.py:9-56 | `getattr(session, name)`: the two handlers, the session's other methods and data attributes, the inherited comparison hooks, the other inherited attributes, or nothing. Its cases are stated by `AttributeCases`. |
| `Client.InvokeEffect` | SFTPClient/Client.py:23-46 | Calling an attribute found on the session with the argument list. Its behaviour per attribute is stated by `LsContract`, `ChmodContract` and `OnlyChmodWrites`. |
| `Client.LsContract` | SFTPClient/Client.py:26-35 | With zero or one argument, `ls` makes exactly one `listdir` call (no path, or that argument). It returns the listing unchanged. A missing directory raises a FileNotFoundError the prompt survives, and a refused one an error that ends the program. With more arguments it raises the usage `TypeError` and makes no call. It never changes the tree. |
| `Client.ChmodContract` | SFTPClient/Client.py:37-46 | With two arguments and an integer mode, `chmod` makes exactly one remote call. It succeeds iff the server neither refuses nor misses the path, and then changes only that path's mode. A refusal leaves the tree as it was and ends the program. A missing path leaves the tree as it was with a FileNotFoundError the prompt survives. Any other input makes no call, changes nothing and raises. |
| `Client.OnlyChmodWrites` | SFTPClient/Client.py:23-46 | Only `chmod` changes the remote tree, and a command makes at most one remote call. An exception the prompt does not catch leaves the tree as it was. It follows a remote call exactly when it is the server's refusal. |
| `Client.SFTP.constructor` | SFTPClient/Client.py:10-15 | The session keeps the host, user name, password and passphrase it was given, the home directory as its local directory, and the connection opened for it. |
| `Client.SFTP.IsConnected` | SFTPClient/Client.py:18-20 | `is_connected` makes one `listdir()` of the current directory and is true exactly when that lists something. |
| `Client.SFTP.Ping` | SFTPClient/Client.py:23-24 | `ping` makes one `listdir()` and answers "pong" when that lists something, "nothing happened" otherwise. |
| `Client.SFTP.Ls` | SFTPClient/Client.py:26-35 | The method makes exactly the calls, and gives exactly the answer, that `LsContract` describes. |
| `Client.SFTP.Chmod` | SFTPClient/Client.py:37-46 | The method makes exactly the calls and tree change that `ChmodContract` describes. |
| `Client.SFTP.Invoke` | FTP_main.py:89 | `getattr(session, name)(args)` has the reply, the calls and the tree change of the attribute found. |
| `Client.Connect` | SFTPClient/Client.py:10-16 | Creating the session stores the host, user name, password, passphrase and home directory it was given, and opens the connection. The outcome, the in-memory store, the file on disk and the write count are those of `InitiateConnection`. |
| `Cli.Tokens` | FTP_main.py:84 | A command line always has a first word. |
| `Cli.Resolve` | FTP_main.py:83-92 | `help` and `quit` go to the shell, and any other name to the session attribute of that name, if there is one. |
| `Cli.CommandOutcome` | FTP_main.py:81-92 | What executing one line does. Its properties are stated by `CliCommandsStayLocal`, `QuitTerminates`, `UnknownCommandReported`, `HelpReadsPage` and `Client.OnlyChmodWrites`. |
| `Cli.HelpFile` | FTP_main.py:94-99 | The file the shell's `help` reads, under `help_files/`. Stated by `HelpReadsPage`. |
| `Cli.TokensRoundTrip` | FTP_main.py:84-89 | Typing a name and blank-free arguments separated by single blanks runs that name with exactly those arguments, and splitting then rejoining a line gives the line back. |
| `Cli.CliCommandsStayLocal` | FTP_main.py:83-86 | `help` and `quit` never reach the session: they make no remote call and leave the remote tree as it was. |
| `Cli.QuitTerminates` | FTP_main.py:83-92 | A command asks to leave the shell iff its first word is `quit`, whatever follows. No command raises the end-of-input error. |
| `Cli.UnknownCommandReported` | FTP_main.py:88-92 | A name that is neither a shell command nor a session attribute raises "Command not found, try 'help'" with no remote call, and the prompt goes on. |
| `Cli.EmptyLineNotFound` | FTP_main.py:84-92 | An empty line names no command. |
| `Cli.HelpReadsPage` | FTP_main.py:94-114 | `help` reads `help_files/command_list.txt` without arguments and `help_files/<first argument>_help.txt` otherwise, and prints that file's page. A missing file is an error the prompt survives. |
| `Cli.PromptEndingCases` | FTP_main.py:43-60 | The shell exits normally only after `quit`, and then with status 0. An uncaught exception ends it with that exception. Otherwise it ends when input runs out. |
| `Cli.PromptEnding` | FTP_main.py:43-60 | How the prompt ends after a run of replies. Stated by `PromptEndingCases`. |
| `Cli.SFTPCLI.constructor` | FTP_main.py:76-77 | The shell holds the session it was created with. |
| `Cli.SFTPCLI.Help` | FTP_main.py:94-99 | `help(args)` prints the page of the file `HelpFile(args)` names. |
| `Cli.SFTPCLI.Quit` | FTP_main.py:116-118 | `quit` requests to leave, whatever its arguments. |
| `Cli.SFTPCLI.ExecuteCommand` | FTP_main.py:81-92 | Executing a line gives the reply, the printed lines, the remote calls and the new remote tree of `CommandOutcome`. |
| `Cli.Session` | FTP_main.py:44-56 | A run of lines gives one reply per line, each line running on the tree the previous ones left. |
| `Cli.SessionLast` | FTP_main.py:44-59 | The last reply of a run asks to leave exactly when the last line is `quit`, and it is never the end-of-input error. The replies before it are those of the shorter run. |
| `Cli.SessionQuit` | FTP_main.py:116-118 | In any run of command lines, exactly the replies to `quit` lines ask to leave. |
| `Cli.LocalSessionKeepsTree` | FTP_main.py:83-86 | A run of `help` and `quit` lines leaves the remote tree as it was. |
| `Cli.ExecuteNext` | FTP_main.py:46-48 | Reading and executing the next line extends the run by that line. |
| `Cli.PromptExit` | FTP_main.py:43-60 | When the loop stopped, the end-of-input crash comes only after every line was read, and a normal exit only after a `quit` line. |
| `Cli.SessionExit` | FTP_main.py:43-60 | The same, for a loop that ran a session on the first lines of its input. |
| `Cli.RunPrompt` | FTP_main.py:43-60 | The loop answers a prefix of the input with the session's replies and leaves the tree that session leaves. Every reply but the last lets it go on. It ends as `PromptEnding` says: exit 0 only after `quit`, an uncaught exception as a crash, and running out of input as the end-of-input error. |
| `Cli.StartupFailure` | FTP_main.py:36-40 | A connection failure exits with status 1 exactly when it is an `SSHException`. It escapes as that error exactly when the host name does not resolve. |
| `Cli.StartupFailureCauses` | FTP_main.py:36-40 | A failed attempt on a host name that does not resolve crashes with that error. On a name that resolves, every failure exits with status 1, and a refused TCP connect is such a failure. |
| `Cli.RunProgram` | FTP_main.py:18-60 | A credential failure exits with 1 before any line is read. A failed connection ends as `StartupFailure` says. After a successful connection it runs the session on a prefix of the input, starting on the server's files. Every reply but the last lets it go on. It ends as `PromptEnding` says: exit 0 only after a `quit` line, a crash on the last reply's uncaught exception, or the end-of-input error once every line was read. |
| `EarlyMain.EveryNameOnOneObject` | src/FTP_main/FTP_main.py:36-79 | `help` and `quit` are found on the same object as every other name. A name is missing exactly when the object does not have it. |
| `EarlyMain.Attribute` | src/FTP_main/FTP_main.py:36-79 | `getattr(self, name)` on the earlier shell object. Stated by `EveryNameOnOneObject`. |
| `EarlyMain.CommandOutcome` | src/FTP_main/FTP_main.py:59-79 | What executing one line does in the earlier shell. Stated by `QuitTerminates`, `UnknownCommandReported` and `HelpReadsPage`. |
| `EarlyMain.HelpFile` | src/FTP_main/FTP_main.py:72-78 | The file the earlier `help` reads, in the working directory. Stated by `HelpReadsPage`. |
| `EarlyMain.QuitTerminates` | src/FTP_main/FTP_main.py:67-70 | A command asks to leave iff its first word is `quit`. No command raises the end-of-input error. |
| `EarlyMain.UnknownCommandReported` | src/FTP_main/FTP_main.py:59-65 | An unknown name is reported as not found, and so is `execute_command` typed as a command (its inner split of a list fails the same way). The prompt goes on. |
| `EarlyMain.HelpReadsPage` | src/FTP_main/FTP_main.py:72-102 | `help` reads `command_list.txt` or `<first argument>_help.txt` from the working directory and prints its page. A missing file is an error the prompt survives. |
| `EarlyMain.SFTP.constructor` | src/FTP_main/FTP_main.py:37-38 | The object starts with its arguments and no connection. |
| `EarlyMain.SFTP.InitiateConnection` | src/FTP_main/FTP_main.py:40-55 | The settings are copied from the arguments. A connection, with host-key checking off, exists exactly when the server admits the password. A failure is only reported. |
| `EarlyMain.SFTP.Help` | src/FTP_main/FTP_main.py:72-78 | `help(args)` prints the page of the file `HelpFile(args)` names. |
| `EarlyMain.SFTP.ExecuteCommand` | src/FTP_main/FTP_main.py:59-65 | Executing a line gives the reply and the printed lines of `CommandOutcome`. |
| `EarlyMain.Replies` | src/FTP_main/FTP_main.py:18-24 | A run of lines gives one reply per line. |
| `EarlyMain.RepliesPointwise` | src/FTP_main/FTP_main.py:18-24 | Each line's reply depends on that line alone, not on the lines before it. |
| `EarlyMain.RepliesLast` | src/FTP_main/FTP_main.py:19-24 | The last reply asks to leave exactly when the last line is `quit`, and it is never the end-of-input error. |
| `EarlyMain.RepliesExit` | src/FTP_main/FTP_main.py:18-24 | When the loop stopped, the end-of-input crash comes only after every line was read, and a normal exit only after `quit`. |
| `EarlyMain.ExecuteNext` | src/FTP_main/FTP_main.py:20-21 | Reading and executing the next line appends its reply. |
| `EarlyMain.RunPrompt` | src/FTP_main/FTP_main.py:18-24 | The loop answers a prefix of the input with the replies. Every reply but the last lets it go on. It exits with 0 only after `quit`, and otherwise ends with an uncaught exception or the end-of-input error. |
| `EarlyMain.RunProgram` | src/FTP_main/FTP_main.py:9-24 | When the server refuses the connection, the program exits with status 1 before any line is read. Otherwise it answers a prefix of the input with the replies, every reply but the last lets it go on, and it ends as `PromptEnding` says: exit 0 only after a `quit` line, a crash on the last reply's uncaught exception, or the end-of-input error once every line was read. |

## Left out

- Printing is not modelled: the logging calls, the console messages ("Connection Successful!", "Unable to connect …"), and the printing of exceptions and results in the prompt loop, including FTP_main.py:53, which prints the `str` type rather than the result. Printed help lines are modelled as the returned sequence.
- `input()` is modelled as a sequence of lines. Running out of lines is the end-of-input error.
- Command-line parsing (`capture_arguments`) is not modelled. Its results are parameters: host, user name, optional password and optional passphrase.
- `expanduser('~')` and `isfile` are parameters: a home directory string and a boolean for whether the default key exists.
- `pysftp` and `paramiko` are modelled only as an abstract server and connection. Transport, authentication protocols, key types, and hashed or pattern entries in `known_hosts` are not modelled. The host-key store is a map from host name to key. On disk it is a second map and a write counter.
- A host that cannot be reached is modelled by two causes. A name that does not resolve is `NameNotResolved`: pysftp turns the resolver's error into its own `ConnectionException`, which is not an `SSHException`, so the program crashes. A name that resolves but refuses or times out the TCP connect is `ConnectRefused`: paramiko raises an `SSHException` ("Unable to connect to …"), so the program exits with status 1. Why a connect fails beyond these two causes is not modelled.
- Client.PinnedKeyEnforced: a private key is loaded before the host key is checked, so a key file that fails to load (a wrong passphrase, say) is an `SSHException` raised before that check. The model folds key loading into the credentials the server accepts, so for a known host with a changed key and a key that does not load it reports the host-key error instead. The exit status is 1 either way.
- The remote file tree is reduced to what `ls` and `chmod` can observe: a listing per directory, a mode per path, and the paths whose listing or mode change the server refuses (denied, or failed otherwise). Why the server refuses (ownership, permissions, server errors) is not modelled. A missing remote path is a `FileNotFoundError`, which the prompt catches. A refusal is a `PermissionError` or another `OSError`, which it does not.
- Channel.Connection.Chmod: records and applies the mode exactly as the client passes it. pysftp re-reads that number's decimal digits as octal (`int(str(mode), 8)`). For a mode with a digit 8 or 9, the real call raises a `ValueError` that the prompt catches, and no remote request is made. The model records the call and sets the mode instead. Modes 0 to 7 arrive unchanged. Other non-negative modes whose octal reading is below 2^32 arrive as that different number. A negative mode, or one whose octal reading is 2^32 or more, does not fit paramiko's unsigned 32-bit field. Then the real call raises `struct.error` before any request is sent, and the prompt does not catch it, so the program crashes. The model sets the mode and goes on.
- `__del__` (SFTPClient/Client.py:50-54) is not modelled, because when a finaliser runs is not observable in the model. The SFTPCLI instance being dropped on exit (FTP_main.py:59) is not modelled either.
- `put`, `cp`, `cp_r`, `lsl` and `close` are not defined in any of the modelled files, so they are not modelled.
- Recursive copy and delete, command history and passphrase retries appear in no modelled file.
- An `AttributeError` raised inside a handler is turned into "Command not found" by Python; no modelled handler raises one.
- The attributes every object has are CPython 3.11's. The rich comparisons and `__subclasshook__` return `NotImplemented` when called with a list; every other one raises a `TypeError`.
- `int()` is modelled for ASCII digits only. Python also accepts other Unicode decimal digits.
- PyText.ParseInt: a text over the 4300-digit limit is rejected like any other invalid literal. The different message of CPython's limit error is not modelled, because messages are only printed.
- PyText.ShowNat: `str(n)` past 4300 digits raises a ValueError in CPython; the model's `ShowNat` is total. `str()` is called only on argument counts and on `HELP_COMMAND_SPACING` (FTP_main.py:110), all far below the limit. The lemmas that read `str(n)` back require that it is within the limit.
- Opening a help file is modelled with only two outcomes: the file exists, or it does not. Other `open()` errors (permissions, a directory) and text decoding errors are not modelled.
- In the earlier shell, before `initiate_connection` runs, Python has no `connection` attribute at all. The model uses `null` for that state.
- The prompt loops of both shells test the previous reply in the loop condition, instead of the source's `prompt` flag (later shell) or leaving the loop from inside the handler via `exit` (earlier shell). The runs are the same.
- Cli.RunProgram: its contract states how the program ends, not the known-hosts store afterwards. The store is stated by `Client.Connect` and `Client.InitiateConnection`.
