/**
 * The reconnect-and-retry behaviour of the SFTP binding's client
 * (bindings/sftp/sftp_client.go) as functions from one state of the world to the next.
 *
 * The network and the SSH/SFTP libraries are a Script: the outcome of the n-th dial, of
 * building an SFTP session over the connection of generation g, and of the n-th request
 * sent to the server. A connection handle is identified by the number of the dial that
 * produced it (its generation); the SFTP session built on top of it carries the same number.
 */
module SftpSpec {
  import opened Wrappers
  import opened Errors

  /** The parts of `*ssh.ClientConfig` the model keeps: it is only handed to the dialer. */
  datatype SshConfig = SshConfig(user: string)

  /** The connection parameters captured at construction and used for every dial. */
  datatype Endpoint = Endpoint(address: string, config: SshConfig)

  /** An `*ssh.Client` or `*sftp.Client` value, named by its connection generation. */
  datatype Handle = SshConn(gen: nat) | SftpSession(gen: nat)

  /** The scripted outcomes of the foreign calls; None is a nil error. */
  datatype Script = Script(
    dial: nat -> Option<Error>,      // the n-th ssh.Dial
    handshake: nat -> Option<Error>, // sftp.NewClient over the connection of generation g
    reply: nat -> Option<Error>)     // the n-th request sent over an SFTP session

  /**
   * What the outside world has seen: every dial target, the session each request was sent
   * over (in order), every handle made or closed.
   */
  datatype Net = Net(dialLog: seq<Endpoint>, sent: seq<Handle>, created: set<Handle>, closed: set<Handle>)

  /** The fields of a `Client`, plus two counters the proofs observe: swaps done and closure runs. */
  datatype Conn = Conn(address: string, config: SshConfig, ssh: Handle, sftp: Handle, reconnects: nat, attempts: nat)

  datatype World = World(conn: Conn, net: Net)

  /** The value an operation produced and the world after it. */
  datatype Step<+T> = Step(out: T, world: World)

  /** Outcome of dialling and building an SFTP session: the new generation, or an error. */
  datatype Dialed = Dialed(out: Result<nat, Error>, net: Net)

  /** Outcome of `newClient`. */
  datatype Built = Built(out: Result<Conn, Error>, net: Net)

  /** The closures `list`, `create`, `get` and `delete` hand to `withReconnection`. */
  datatype Action =
    | ReadDir(path: string)                // list
    | MakeFile(dir: string, path: string)  // create: MkdirAll(dir), then Create(path)
    | Open(path: string)                   // get
    | Remove(path: string)                 // delete

  /** What a successful closure leaves behind, tagged with the session generation that served it. */
  datatype Payload = Entries(dir: string, gen: nat) | File(path: string, gen: nat) | Done

  const NotInitialized := "sftp binding error: client not initialized"
  const SshPrefix := "sftp binding error: error create ssh client: "
  const SftpPrefix := "sftp binding error: error create sftp client: "

  function CreateDirPrefix(dir: string): string { "sftp binding error: error create dir " + dir + ": " }
  function CreateFilePrefix(path: string): string { "sftp binding error: error create file " + path + ": " }

  /** A network on which no handle is open. */
  predicate Quiescent(n: Net)
  {
    && n.created <= n.closed
    && n.closed <= n.created
    && (forall h | h in n.created :: h.gen < |n.dialLog|)
  }

  /**
   * The client invariant: both handles belong to one connection generation, that
   * connection was dialled to the client's own endpoint, and the current pair is
   * exactly the set of handles left open.
   */
  predicate Consistent(w: World)
  {
    var c, n := w.conn, w.net;
    && c.ssh == SshConn(c.ssh.gen)
    && c.sftp == SftpSession(c.ssh.gen)
    && c.ssh.gen < |n.dialLog|
    && n.dialLog[c.ssh.gen] == Endpoint(c.address, c.config)
    && n.created - n.closed == {c.ssh, c.sftp}
    && n.closed <= n.created
    && (forall h | h in n.created :: h.gen < |n.dialLog|)
  }

  /** One request/response exchange with the server over the current SFTP session (`ping` is one `Getwd`). */
  function Request(sc: Script, w: World): Step<Option<Error>>
  {
    Step(sc.reply(|w.net.sent|), w.(net := w.net.(sent := w.net.sent + [w.conn.sftp])))
  }

  function Reply(e: Option<Error>, p: Payload): Result<Payload, Error>
  {
    if e.None? then Ok(p) else Err(e.value)
  }

  /** The payload a successful run of the closure for `a` leaves, served by session generation `gen`. */
  function Served(a: Action, gen: nat): Payload
  {
    match a
    case ReadDir(dir) => Entries(dir, gen)
    case MakeFile(_, path) => File(path, gen)
    case Open(path) => File(path, gen)
    case Remove(_) => Done
  }

  /** One run of an operation's closure against the session of the moment. */
  function Attempt(sc: Script, w: World, a: Action): Step<Result<Payload, Error>>
  {
    var gen := w.conn.sftp.gen;
    var first := Request(sc, w.(conn := w.conn.(attempts := w.conn.attempts + 1)));
    match a
    case MakeFile(dir, path) =>
      if first.out.Some? then
        Step(Err(Wrapped(CreateDirPrefix(dir), first.out.value)), first.world)
      else
        var second := Request(sc, first.world);
        if second.out.Some? then
          Step(Err(Wrapped(CreateFilePrefix(path), second.out.value)), second.world)
        else
          Step(Ok(Served(a, gen)), second.world)
    case _ => Step(Reply(first.out, Served(a, gen)), first.world)
  }

  /** `sftp.Split`, which is Go's `path.Split`: everything up to and including the last '/', and the rest. */
  function Split(path: string): (r: (string, string))
    ensures r.0 + r.1 == path
    ensures '/' !in r.1
    ensures r.0 == [] || r.0[|r.0| - 1] == '/'
  {
    if path == [] then
      ([], [])
    else if path[|path| - 1] == '/' then
      (path, [])
    else
      var (dir, file) := Split(path[..|path| - 1]);
      (dir, file + [path[|path| - 1]])
  }

  /** `ssh.Dial` to the endpoint, then `sftp.NewClient` over it, closing the fresh connection if the second step fails. */
  function Connect(sc: Script, n: Net, ep: Endpoint): Dialed
  {
    var gen := |n.dialLog|;
    var dialled := n.(dialLog := n.dialLog + [ep]);
    if sc.dial(gen).Some? then
      Dialed(Err(Wrapped(SshPrefix, sc.dial(gen).value)), dialled)
    else
      var withSsh := dialled.(created := dialled.created + {SshConn(gen)});
      if sc.handshake(gen).Some? then
        Dialed(Err(Wrapped(SftpPrefix, sc.handshake(gen).value)), withSsh.(closed := withSsh.closed + {SshConn(gen)}))
      else
        Dialed(Ok(gen), withSsh.(created := withSsh.created + {SftpSession(gen)}))
  }

  /** `newClient`. */
  function NewClient(sc: Script, n: Net, address: string, config: Option<SshConfig>): Built
  {
    if address == "" || config.None? then
      Built(Err(Text(NotInitialized)), n)
    else
      var d := Connect(sc, n, Endpoint(address, config.value));
      if d.out.Err? then
        Built(Err(d.out.error), d.net)
      else
        Built(Ok(Conn(address, config.value, SshConn(d.out.value), SftpSession(d.out.value), 0, 0)), d.net)
  }

  /** `doReconnect`: probe, and only when the probe shows a transport failure build and swap in a new pair. */
  function Reconnect(sc: Script, w: World): Step<Option<Error>>
  {
    var probe := Request(sc, w);
    if !ShouldReconnect(probe.out) then
      Step(None, probe.world)
    else
      var c := w.conn;
      var d := Connect(sc, probe.world.net, Endpoint(c.address, c.config));
      if d.out.Err? then
        Step(Some(d.out.error), probe.world.(net := d.net))
      else
        var gen := d.out.value;
        Step(None, World(
          c.(ssh := SshConn(gen), sftp := SftpSession(gen), reconnects := c.reconnects + 1),
          d.net.(closed := d.net.closed + {c.sftp, c.ssh})))
  }

  /** `withReconnection`: run, classify, reconnect, run once more. */
  function WithReconnection(sc: Script, w: World, a: Action): Step<Result<Payload, Error>>
  {
    var first := Attempt(sc, w, a);
    if first.out.Ok? || !ShouldReconnect(Some(first.out.error)) then
      first
    else
      var rec := Reconnect(sc, first.world);
      if rec.out.Some? then
        Step(Err(Joined(first.out.error, rec.out.value)), rec.world)
      else
        Attempt(sc, rec.world, a)
  }
}
