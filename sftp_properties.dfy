/** What `withReconnection`, `doReconnect` and `newClient` promise, proved of SftpSpec. */
module SftpProperties {
  import opened Wrappers
  import opened Errors
  import opened SftpSpec

  /** The session, the counters of swaps, the connection parameters and the handle sets are as in `w`. */
  predicate SameSession(w: World, w': World)
  {
    && w'.conn.ssh == w.conn.ssh
    && w'.conn.sftp == w.conn.sftp
    && w'.conn.address == w.conn.address
    && w'.conn.config == w.conn.config
    && w'.conn.reconnects == w.conn.reconnects
    && w'.net.dialLog == w.net.dialLog
    && w'.net.created == w.net.created
    && w'.net.closed == w.net.closed
  }

  /** A closure run talks to the current session only: one or two requests, nothing dialled, opened or closed. */
  lemma AttemptUsesCurrentSession(sc: Script, w: World, a: Action)
    ensures var s := Attempt(sc, w, a);
      && SameSession(w, s.world)
      && s.world.conn.attempts == w.conn.attempts + 1
      && (s.world.net.sent == w.net.sent + [w.conn.sftp]
          || s.world.net.sent == w.net.sent + [w.conn.sftp, w.conn.sftp])
      && (s.out.Ok? ==> s.out.value == Served(a, w.conn.sftp.gen))
  {
  }

  /** A closure run keeps the client invariant. */
  lemma AttemptConsistent(sc: Script, w: World, a: Action)
    requires Consistent(w)
    ensures Consistent(Attempt(sc, w, a).world)
  {
  }

  /** `newClient` with an empty address or a nil config fails before dialling. */
  lemma NewClientRejectsMissingParameters(sc: Script, n: Net, address: string, config: Option<SshConfig>)
    requires address == "" || config.None?
    ensures NewClient(sc, n, address, config) == Built(Err(Text(NotInitialized)), n)
  {
  }

  /**
   * `newClient` on a network with nothing open: it succeeds exactly when the parameters are
   * present and both the dial and the SFTP handshake succeed; then the client holds a
   * consistent fresh pair; otherwise nothing is left open.
   */
  lemma NewClientEstablishes(sc: Script, n: Net, address: string, config: Option<SshConfig>)
    requires Quiescent(n)
    ensures var b := NewClient(sc, n, address, config);
      && (b.out.Ok? <==>
           address != "" && config.Some? && sc.dial(|n.dialLog|).None? && sc.handshake(|n.dialLog|).None?)
      && (b.out.Ok? ==>
           && Consistent(World(b.out.value, b.net))
           && b.out.value.address == address
           && Some(b.out.value.config) == config
           && b.out.value.ssh == SshConn(|n.dialLog|)
           && b.out.value.reconnects == 0
           && b.out.value.attempts == 0)
      && (b.out.Err? ==> Quiescent(b.net))
  {
  }

  /** When the probe succeeds or fails only logically, `doReconnect` dials nothing and keeps the session. */
  lemma ReconnectSkippedWhenHealthy(sc: Script, w: World)
    requires !ShouldReconnect(Request(sc, w).out)
    ensures var r := Reconnect(sc, w);
      && r.out.None?
      && SameSession(w, r.world)
      && r.world.conn == w.conn
      && r.world.net.sent == w.net.sent + [w.conn.sftp]
  {
  }

  /** A failed dial: the error carries the dial error, and the session and handles are untouched. */
  lemma ReconnectDialFailure(sc: Script, w: World)
    requires ShouldReconnect(Request(sc, w).out)
    requires sc.dial(|w.net.dialLog|).Some?
    ensures var r := Reconnect(sc, w);
      && r.out == Some(Wrapped(SshPrefix, sc.dial(|w.net.dialLog|).value))
      && r.world.conn == w.conn
      && r.world.net.created == w.net.created
      && r.world.net.closed == w.net.closed
      && r.world.net.dialLog == w.net.dialLog + [Endpoint(w.conn.address, w.conn.config)]
  {
  }

  /** A failed SFTP handshake: the freshly dialled connection is closed again, the old pair stays. */
  lemma ReconnectHandshakeFailure(sc: Script, w: World)
    requires ShouldReconnect(Request(sc, w).out)
    requires sc.dial(|w.net.dialLog|).None? && sc.handshake(|w.net.dialLog|).Some?
    ensures var r := Reconnect(sc, w); var g := |w.net.dialLog|;
      && r.out == Some(Wrapped(SftpPrefix, sc.handshake(g).value))
      && r.world.conn == w.conn
      && r.world.net.created == w.net.created + {SshConn(g)}
      && r.world.net.closed == w.net.closed + {SshConn(g)}
  {
  }

  /**
   * A successful reconnect replaces both handles by a fresh pair of one new generation,
   * closes both old handles, and leaves the connection parameters alone.
   */
  lemma ReconnectSwapsPair(sc: Script, w: World)
    requires Consistent(w)
    requires ShouldReconnect(Request(sc, w).out)
    requires sc.dial(|w.net.dialLog|).None? && sc.handshake(|w.net.dialLog|).None?
    ensures var r := Reconnect(sc, w); var g := |w.net.dialLog|;
      && r.out.None?
      && r.world.conn == w.conn.(ssh := SshConn(g), sftp := SftpSession(g), reconnects := w.conn.reconnects + 1)
      && SshConn(g) !in w.net.created && SftpSession(g) !in w.net.created
      && w.conn.ssh in r.world.net.closed && w.conn.sftp in r.world.net.closed
      && Consistent(r.world)
  {
    var r := Reconnect(sc, w);
    var g := |w.net.dialLog|;
    assert r.world.net.created == w.net.created + {SshConn(g), SftpSession(g)};
    assert r.world.net.closed == w.net.closed + {w.conn.sftp, w.conn.ssh};
    assert SshConn(g) !in w.net.closed && SftpSession(g) !in w.net.closed;
    forall h
      ensures h in r.world.net.created - r.world.net.closed <==> h == SshConn(g) || h == SftpSession(g)
    {
      if h in w.net.created - w.net.closed {
        assert h in {w.conn.ssh, w.conn.sftp};
      }
    }
  }

  /**
   * Whatever happens, `doReconnect` keeps the client invariant, never changes the
   * connection parameters, dials at most once and only the client's own endpoint,
   * and swaps at most once.
   */
  lemma ReconnectConsistent(sc: Script, w: World)
    requires Consistent(w)
    ensures var r := Reconnect(sc, w);
      && Consistent(r.world)
      && r.world.conn.address == w.conn.address
      && r.world.conn.config == w.conn.config
      && r.world.conn.attempts == w.conn.attempts
      && r.world.conn.reconnects <= w.conn.reconnects + 1
      && (r.world.net.dialLog == w.net.dialLog
          || r.world.net.dialLog == w.net.dialLog + [Endpoint(w.conn.address, w.conn.config)])
  {
    if ShouldReconnect(Request(sc, w).out) {
      var g := |w.net.dialLog|;
      if sc.dial(g).Some? {
        ReconnectDialFailure(sc, w);
      } else if sc.handshake(g).Some? {
        ReconnectHandshakeFailure(sc, w);
      } else {
        ReconnectSwapsPair(sc, w);
      }
    }
  }

  /** First run succeeds: that result, one run, no reconnect, no dial. */
  lemma FirstSuccess(sc: Script, w: World, a: Action)
    requires Attempt(sc, w, a).out.Ok?
    ensures var r := WithReconnection(sc, w, a);
      && r.out == Attempt(sc, w, a).out
      && r.world.conn.attempts == w.conn.attempts + 1
      && SameSession(w, r.world)
  {
  }

  /** First run fails logically: that same error, one run, session and reconnect count unchanged. */
  lemma LogicalErrorReturned(sc: Script, w: World, a: Action)
    requires Attempt(sc, w, a).out.Err?
    requires !ShouldReconnect(Some(Attempt(sc, w, a).out.error))
    ensures var r := WithReconnection(sc, w, a);
      && r.out == Attempt(sc, w, a).out
      && r.world.conn.attempts == w.conn.attempts + 1
      && SameSession(w, r.world)
  {
  }

  /** Transport failure and failed reconnect: both errors are joined and the closure is not run again. */
  lemma ReconnectFailureJoined(sc: Script, w: World, a: Action)
    requires Attempt(sc, w, a).out.Err?
    requires ShouldReconnect(Some(Attempt(sc, w, a).out.error))
    requires Reconnect(sc, Attempt(sc, w, a).world).out.Some?
    ensures var r := WithReconnection(sc, w, a);
      && r.out == Err(Joined(Attempt(sc, w, a).out.error, Reconnect(sc, Attempt(sc, w, a).world).out.value))
      && r.world.conn == Attempt(sc, w, a).world.conn
      && r.world.conn.ssh == w.conn.ssh && r.world.conn.sftp == w.conn.sftp
      && r.world.conn.attempts == w.conn.attempts + 1
  {
  }

  /**
   * Transport failure and successful reconnect: the closure runs exactly a second time and
   * its result is returned as it is, success or failure, logical or transport; one swap at most.
   */
  lemma RetriedOnce(sc: Script, w: World, a: Action)
    requires Attempt(sc, w, a).out.Err?
    requires ShouldReconnect(Some(Attempt(sc, w, a).out.error))
    requires Reconnect(sc, Attempt(sc, w, a).world).out.None?
    ensures var rec := Reconnect(sc, Attempt(sc, w, a).world); var r := WithReconnection(sc, w, a);
      && r.out == Attempt(sc, rec.world, a).out
      && r.world.conn.attempts == w.conn.attempts + 2
      && r.world.conn.reconnects <= w.conn.reconnects + 1
  {
  }

  /**
   * Bounded retry, for every script: one or two runs, at most one swap, at most one dial,
   * and every dial goes to the client's own endpoint.
   */
  lemma BoundedRetry(sc: Script, w: World, a: Action)
    ensures var r := WithReconnection(sc, w, a);
      && w.conn.attempts + 1 <= r.world.conn.attempts <= w.conn.attempts + 2
      && w.conn.reconnects <= r.world.conn.reconnects <= w.conn.reconnects + 1
      && r.world.conn.address == w.conn.address
      && r.world.conn.config == w.conn.config
      && (r.world.net.dialLog == w.net.dialLog
          || r.world.net.dialLog == w.net.dialLog + [Endpoint(w.conn.address, w.conn.config)])
  {
  }

  /** `withReconnection` keeps the client invariant whatever the script. */
  lemma WithReconnectionConsistent(sc: Script, w: World, a: Action)
    requires Consistent(w)
    ensures Consistent(WithReconnection(sc, w, a).world)
  {
    var first := Attempt(sc, w, a);
    AttemptConsistent(sc, w, a);
    if first.out.Err? && ShouldReconnect(Some(first.out.error)) {
      var rec := Reconnect(sc, first.world);
      ReconnectConsistent(sc, first.world);
      if rec.out.None? {
        AttemptConsistent(sc, rec.world, a);
      }
    }
  }

  /**
   * A successful result is the operation's payload served by the session that is current
   * afterwards: after a swap, by the new connection.
   */
  lemma WithReconnectionServedByCurrent(sc: Script, w: World, a: Action)
    ensures var r := WithReconnection(sc, w, a);
      r.out.Ok? ==> r.out.value == Served(a, r.world.conn.sftp.gen)
  {
  }

  /** Split's three properties pin its result down: no other decomposition has them. */
  lemma SplitUnique(path: string, dir: string, file: string)
    requires dir + file == path
    requires '/' !in file
    requires dir == [] || dir[|dir| - 1] == '/'
    ensures Split(path) == (dir, file)
  {
    var (d, f) := Split(path);
    assert d == path[..|d|] && dir == path[..|dir|];
    assert f == path[|d|..] && file == path[|dir|..];
  }
}

/** The integration test's delete scenarios, replayed on scripted outcomes. */
module SftpScenarios {
  import opened Wrappers
  import opened Errors
  import opened SftpSpec

  const Missing := "file_does_not_exist.txt"

  /** A server that accepts every connection and has no file named Missing. */
  function Healthy(): Script
  {
    Script(_ => None, _ => None, _ => Some(Status(NoSuchFile)))
  }

  /** The same server after the proxy killed the first connection: the next two requests see a dead link. */
  function Severed(): Script
  {
    Script(_ => None, _ => None, n => if n < 2 then Some(Text("EOF")) else Some(Status(NoSuchFile)))
  }

  /** Deleting a missing file over a healthy connection: "no such file" and no reconnection. */
  lemma DeleteMissingFile()
    ensures var b := NewClient(Healthy(), Net([], [], {}, {}), "proxy:2222", Some(SshConfig("foo")));
      && b.out.Ok?
      && var r := WithReconnection(Healthy(), World(b.out.value, b.net), Remove(Missing));
      && r.out == Err(Status(NoSuchFile))
      && r.world.conn.reconnects == 0
      && |r.world.net.dialLog| == 1
      && r.world.net.sent == [SftpSession(0)]
  {
  }

  /** Deleting a missing file right after the connection was severed: one reconnection, then "no such file". */
  lemma DeleteMissingFileAfterSever()
    ensures var b := NewClient(Severed(), Net([], [], {}, {}), "proxy:2222", Some(SshConfig("foo")));
      && b.out.Ok?
      && var r := WithReconnection(Severed(), World(b.out.value, b.net), Remove(Missing));
      && r.out == Err(Status(NoSuchFile))
      && r.world.conn.reconnects == 1
      && r.world.conn.attempts == 2
      && |r.world.net.dialLog| == 2
      && r.world.net.closed == {SshConn(0), SftpSession(0)}
      && r.world.net.sent == [SftpSession(0), SftpSession(0), SftpSession(1)]
  {
  }
}
