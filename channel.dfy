/**
 * The remote side of a session, seen only through what the client asks of it: a
 * server that admits or refuses a connection, a connection that answers directory
 * listings and mode changes and records every call made on it, and the known-hosts
 * store that remembers each host's key.
 */
module Channel {
  import opened Python

  type HostKey = string

  /** The credential a connection attempt presents. */
  datatype Credential =
    | Password(password: string)
    | PrivateKey(keyFile: string, passphrase: Option<string>)

  /** A call made on an open connection. */
  datatype Call = ListDir(dir: Option<string>) | Chmod(target: string, mode: int)

  /** How the server turns down a request on a path it does not answer: it denies it, or it fails otherwise. */
  datatype Refusal = Denied | Failed

  /**
   * The remote file tree as far as the session can observe it: the listing of each
   * directory, the mode of each path, and the paths whose listing or mode change the
   * server turns down for this user.
   */
  datatype RemoteState = RemoteState(listings: map<string, seq<string>>, modes: map<string, int>,
                                     listRefusals: map<string, Refusal>, chmodRefusals: map<string, Refusal>)

  /**
   * A remote host: the key it presents, whether its name resolves to an address,
   * whether a TCP connection to that address can be opened, the credentials it
   * accepts and its files.
   */
  datatype Server = Server(hostKey: HostKey, resolves: bool, listening: bool, accepts: set<Credential>,
                           files: RemoteState)

  /** The remote directory `listdir()` lists when no path is given. */
  const CurrentDirectory := "."

  /** Whether a listing counts as true in Python: it is non-empty. */
  predicate Truthy(names: seq<string>)
  {
    |names| > 0
  }

  /**
   * Whether `server` admits a connection to `host` with `credential`. With `hostKeys`
   * present the presented key must be the one recorded for the host; with `hostKeys`
   * absent any key is accepted. The host name is resolved and the TCP connection
   * opened first, then the host key is checked, then the credential. Loading the
   * private-key file, which pysftp does before the host-key check, is folded into
   * `accepts`: a key that fails to load is a credential the server does not accept.
   */
  function Admits(server: Server, host: string, hostKeys: Option<map<string, HostKey>>, credential: Credential)
    : (r: Result<(), ConnectError>)
    ensures r.Success? <==>
      && server.resolves && server.listening
      && (hostKeys.Some? ==> host in hostKeys.value && hostKeys.value[host] == server.hostKey)
      && credential in server.accepts
    ensures r.Failure? && r.error.HostKeyRejected? ==> hostKeys.Some?
    ensures r == Failure(NameNotResolved(host)) <==> !server.resolves
    ensures r == Failure(ConnectRefused(host)) <==> server.resolves && !server.listening
  {
    if !server.resolves then Failure(NameNotResolved(host))
    else if !server.listening then Failure(ConnectRefused(host))
    else if hostKeys.Some? && (host !in hostKeys.value || hostKeys.value[host] != server.hostKey) then
      Failure(HostKeyRejected(host))
    else if credential !in server.accepts then Failure(AuthenticationFailed(host))
    else Success(())
  }

  /** The error a refusal of a request on `path` reports. */
  function Refused(refusal: Refusal, path: string): RemoteError
  {
    if refusal == Denied then PermissionDenied(path) else OtherFailure(path)
  }

  /**
   * The answer to `listdir(path)`, where no path means the current remote directory:
   * the server's refusal if it turns the request down, otherwise the listing, or the
   * missing-path error.
   */
  function ListReply(state: RemoteState, path: Option<string>): (r: Result<seq<string>, RemoteError>)
    ensures var p := if path.Some? then path.value else CurrentDirectory;
      && (r.Success? <==> p !in state.listRefusals && p in state.listings)
      && (r.Success? ==> r.value == state.listings[p])
      && (p in state.listRefusals ==> r == Failure(Refused(state.listRefusals[p], p)))
      && (p !in state.listRefusals && p !in state.listings ==> r == Failure(NoSuchFile(p)))
  {
    var p := if path.Some? then path.value else CurrentDirectory;
    if p in state.listRefusals then Failure(Refused(state.listRefusals[p], p))
    else if p in state.listings then Success(state.listings[p])
    else Failure(NoSuchFile(p))
  }

  /**
   * The remote tree after `chmod(path, mode)`: only the mode of `path` changes; a
   * refused request reports the refusal, and a missing path is an error.
   */
  function ChmodReply(state: RemoteState, path: string, mode: int): (r: Result<RemoteState, RemoteError>)
    ensures r.Success? <==> path !in state.chmodRefusals && path in state.modes
    ensures r.Success? ==> r.value == state.(modes := r.value.modes)
    ensures r.Success? ==> r.value.modes.Keys == state.modes.Keys && r.value.modes[path] == mode
    ensures r.Success? ==> forall q :: q in state.modes && q != path ==> r.value.modes[q] == state.modes[q]
    ensures path in state.chmodRefusals ==> r == Failure(Refused(state.chmodRefusals[path], path))
    ensures path !in state.chmodRefusals && path !in state.modes ==> r == Failure(NoSuchFile(path))
  {
    if path in state.chmodRefusals then Failure(Refused(state.chmodRefusals[path], path))
    else if path in state.modes then Success(state.(modes := state.modes[path := mode]))
    else Failure(NoSuchFile(path))
  }

  /** An open connection: it answers from the remote tree and records each call made on it. */
  class Connection {
    var calls: seq<Call>
    var state: RemoteState
    const remoteServerKey: HostKey

    constructor (server: Server)
      ensures calls == [] && state == server.files && remoteServerKey == server.hostKey
    {
      calls := [];
      state := server.files;
      remoteServerKey := server.hostKey;
    }

    /** `listdir(path)`: lists a remote directory; the tree does not change. */
    method ListDir(path: Option<string>) returns (r: Result<seq<string>, RemoteError>)
      modifies this
      ensures calls == old(calls) + [Call.ListDir(path)]
      ensures state == old(state)
      ensures r == ListReply(state, path)
    {
      calls := calls + [Call.ListDir(path)];
      r := ListReply(state, path);
    }

    /** `chmod(path, mode)`: sets the mode of a remote path. */
    method Chmod(path: string, mode: int) returns (r: Result<(), RemoteError>)
      modifies this
      ensures calls == old(calls) + [Call.Chmod(path, mode)]
      ensures var next := ChmodReply(old(state), path, mode);
        && (next.Success? ==> r == Success(()) && state == next.value)
        && (next.Failure? ==> r == Failure(next.error) && state == old(state))
    {
      calls := calls + [Call.Chmod(path, mode)];
      var next := ChmodReply(state, path, mode);
      if next.Success? {
        state := next.value;
        r := Success(());
      } else {
        r := Failure(next.error);
      }
    }
  }

  /**
   * The known-hosts store: the keys loaded from the known-hosts file, what that
   * file holds on disk, and how many times it has been written.
   */
  class KnownHosts {
    var entries: map<string, HostKey>
    var saved: map<string, HostKey>
    var saves: nat

    constructor (onDisk: map<string, HostKey>)
      ensures entries == onDisk && saved == onDisk && saves == 0
    {
      entries := onDisk;
      saved := onDisk;
      saves := 0;
    }

    /** Load the known-hosts file into memory, as each new set of connection options does. */
    method Load()
      modifies this
      ensures entries == saved == old(saved) && saves == old(saves)
    {
      entries := saved;
    }

    /** Record `key` for `host` in memory. */
    method Add(host: string, key: HostKey)
      modifies this
      ensures entries == old(entries)[host := key]
      ensures saved == old(saved) && saves == old(saves)
    {
      entries := entries[host := key];
    }

    /** Write the store to the known-hosts file. */
    method Save()
      modifies this
      ensures saved == entries == old(entries)
      ensures saves == old(saves) + 1
    {
      saved := entries;
      saves := saves + 1;
    }
  }
}
