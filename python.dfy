/**
 * The parts of the Python runtime that the session shell's behaviour depends on:
 * optional values, the exceptions its handlers raise or let through, the values they
 * return, and the policy by which the interactive prompt reacts to each of them.
 */
module Python {

  datatype Option<+T> = None | Some(value: T)

  datatype Result<+T, +E> = Success(value: T) | Failure(error: E)

  /**
   * An error the remote channel reports for one call, as paramiko translates the
   * server's status: a missing path is an OSError with errno ENOENT (a
   * FileNotFoundError), a refused request one with errno EACCES (a PermissionError),
   * and any other failure a plain OSError or EOFError.
   */
  datatype RemoteError = NoSuchFile(path: string) | PermissionDenied(path: string) | OtherFailure(path: string)

  /** Why opening a connection to the remote host failed. */
  datatype ConnectError =
    | BadAuthenticationType(message: string, allowedTypes: seq<string>)  // no credential could be chosen
    | HostKeyRejected(host: string)        // the presented host key is not the recorded one
    | AuthenticationFailed(host: string)   // the server refused the credential
    | NameNotResolved(host: string)        // the host name does not resolve to an address
    | ConnectRefused(host: string)         // the name resolves, but no TCP connection could be opened

  /**
   * Every connect failure except an unresolvable host name is a paramiko
   * `SSHException`: a failed TCP connect is paramiko's "Unable to connect to ...".
   * A name that does not resolve surfaces as pysftp's own `ConnectionException`,
   * which is not one.
   */
  predicate IsSshException(e: ConnectError)
  {
    !e.NameNotResolved?
  }

  /** The exceptions that can leave a command handler. */
  datatype Exc =
    | TypeError(message: string)         // a TypeError the modelled code raises with this message
    | CallRejected(attribute: string)    // the TypeError Python raises itself: not callable, or the wrong argument list
    | ValueError(message: string)
    | InvalidLiteral(text: string)       // the ValueError of int() on a string that is not a base-10 integer
    | FileNotFoundError(message: string)
    | Remote(remote: RemoteError)        // the channel's error
    | Connect(failure: ConnectError)
    | EndOfInput                         // the EOFError of input() once standard input is exhausted

  /** The exceptions `except (ValueError, FileNotFoundError)` catches. */
  predicate CaughtByPrompt(e: Exc)
  {
    e.ValueError? || e.InvalidLiteral? || e.FileNotFoundError? || (e.Remote? && e.remote.NoSuchFile?)
  }

  /** What a handler returns when it returns normally. */
  datatype PyValue = NoneValue | Names(names: seq<string>) | NotImplemented

  /** The result of dispatching one command line; `Terminate` is the request to leave the session. */
  datatype Reply = Returned(value: PyValue) | Terminate | Raised(exc: Exc)

  /** What the prompt loop does after one reply. */
  datatype LoopStep = Continue | Stop(code: int) | Abort(exc: Exc)

  /** How the whole process ends: an exit status, or an exception nobody caught. */
  datatype ProcessOutcome = Exited(code: int) | Crashed(exc: Exc)

  /**
   * The prompt loop's reaction to a reply: a termination request ends the loop with
   * status 0, a caught exception is reported and the loop goes on, and every other
   * exception escapes the loop.
   */
  function Step(r: Reply): (s: LoopStep)
    ensures s.Stop? <==> r.Terminate?
    ensures s.Stop? ==> s.code == 0
    ensures s.Abort? <==> r.Raised? && !CaughtByPrompt(r.exc)
    ensures s.Abort? ==> s.exc == r.exc
  {
    match r
    case Returned(_) => Continue
    case Terminate => Stop(0)
    case Raised(e) => if CaughtByPrompt(e) then Continue else Abort(e)
  }

  /** The process outcome of a loop step that ends the loop. */
  function Ending(s: LoopStep): ProcessOutcome
    requires !s.Continue?
  {
    match s
    case Stop(code) => Exited(code)
    case Abort(e) => Crashed(e)
  }

  /**
   * The attributes every instance of a plain Python 3.11 class has besides its own:
   * the ones inherited from `object`, plus `__dict__`, `__module__` and `__weakref__`.
   */
  const ObjectAttributes: set<string> := {
    "__class__", "__delattr__", "__dict__", "__dir__", "__doc__", "__eq__",
    "__format__", "__ge__", "__getattribute__", "__getstate__", "__gt__", "__hash__",
    "__init__", "__init_subclass__", "__le__", "__lt__", "__module__", "__ne__",
    "__new__", "__reduce__", "__reduce_ex__", "__repr__", "__setattr__", "__sizeof__",
    "__str__", "__subclasshook__", "__weakref__"
  }

  /**
   * The inherited attributes that, called with one list argument, return
   * `NotImplemented` instead of raising; every other one raises a TypeError.
   */
  const NotImplementedAttributes: set<string> := {
    "__eq__", "__ne__", "__lt__", "__le__", "__gt__", "__ge__", "__subclasshook__"
  }
}
