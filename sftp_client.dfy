/**
 * The SFTP binding's `Client` (bindings/sftp/sftp_client.go) as a class whose methods
 * change its handles in place, talking to a scripted `Remote` that stands for the network
 * and the SSH/SFTP libraries. Every method is proved to move the pair (client, remote)
 * exactly as the matching function of SftpSpec says; SftpProperties proves what those
 * functions guarantee.
 */
module SftpClient {
  import opened Wrappers
  import opened Errors
  import opened SftpSpec
  import SftpProperties

  /** The network and the SSH/SFTP libraries, answering every call from a fixed script. */
  class Remote {
    const script: Script
    var dialLog: seq<Endpoint>
    var sent: seq<Handle>
    var created: set<Handle>
    var closed: set<Handle>

    function Model(): Net
      reads this
    {
      Net(dialLog, sent, created, closed)
    }

    constructor (script: Script)
      ensures this.script == script
      ensures Model() == Net([], [], {}, {})
    {
      this.script := script;
      dialLog, sent, created, closed := [], [], {}, {};
    }

    /** `ssh.Dial("tcp", address, config)`. */
    method Dial(ep: Endpoint) returns (r: Result<Handle, Error>)
      modifies this
      ensures var g := |old(dialLog)|;
        && dialLog == old(dialLog) + [ep]
        && sent == old(sent)
        && closed == old(closed)
        && (script.dial(g).None? ==> r == Ok(SshConn(g)) && created == old(created) + {SshConn(g)})
        && (script.dial(g).Some? ==> r == Err(script.dial(g).value) && created == old(created))
    {
      var g := |dialLog|;
      dialLog := dialLog + [ep];
      var e := script.dial(g);
      if e.Some? {
        r := Err(e.value);
      } else {
        created := created + {SshConn(g)};
        r := Ok(SshConn(g));
      }
    }

    /** `sftp.NewClient(sshClient)`. */
    method NewSession(ssh: Handle) returns (r: Result<Handle, Error>)
      modifies this
      ensures dialLog == old(dialLog) && sent == old(sent) && closed == old(closed)
      ensures script.handshake(ssh.gen).None? ==>
        r == Ok(SftpSession(ssh.gen)) && created == old(created) + {SftpSession(ssh.gen)}
      ensures script.handshake(ssh.gen).Some? ==>
        r == Err(script.handshake(ssh.gen).value) && created == old(created)
    {
      var e := script.handshake(ssh.gen);
      if e.Some? {
        r := Err(e.value);
      } else {
        created := created + {SftpSession(ssh.gen)};
        r := Ok(SftpSession(ssh.gen));
      }
    }

    /** One request over an SFTP session: `Getwd`, `ReadDir`, `MkdirAll`, `Create`, `Open` or `Remove`. */
    method Send(session: Handle) returns (e: Option<Error>)
      modifies this
      ensures e == script.reply(|old(sent)|)
      ensures Model() == old(Model()).(sent := old(sent) + [session])
    {
      e := script.reply(|sent|);
      sent := sent + [session];
    }

    /** `Close()` on either kind of handle; its error is ignored by every caller. */
    method Close(h: Handle)
      modifies this
      ensures Model() == old(Model()).(closed := old(closed) + {h})
    {
      closed := closed + {h};
    }
  }

  class Client {
    const address: string
    const config: SshConfig
    var sshClient: Handle
    var sftpClient: Handle
    /** Number of successful swaps done by DoReconnect. */
    ghost var reconnects: nat
    /** Number of closure runs done by WithReconnection. */
    ghost var attempts: nat

    ghost function Model(): Conn
      reads this
    {
      Conn(address, config, sshClient, sftpClient, reconnects, attempts)
    }

    ghost function State(net: Remote): World
      reads this, net
    {
      World(Model(), net.Model())
    }

    constructor (address: string, config: SshConfig, ssh: Handle, sftp: Handle)
      ensures Model() == Conn(address, config, ssh, sftp, 0, 0)
    {
      this.address := address;
      this.config := config;
      sshClient, sftpClient := ssh, sftp;
      reconnects, attempts := 0, 0;
    }

    /** `newClient`: check the parameters, dial, open the SFTP session over the connection. */
    static method NewClient(address: string, config: Option<SshConfig>, net: Remote) returns (r: Result<Client, Error>)
      modifies net
      ensures var b := SftpSpec.NewClient(net.script, old(net.Model()), address, config);
        && net.Model() == b.net
        && r.Ok? == b.out.Ok?
        && (r.Ok? ==> fresh(r.value) && r.value.Model() == b.out.value)
        && (r.Err? ==> b.out == Err(r.error))
      ensures Quiescent(old(net.Model())) && r.Ok? ==> Consistent(r.value.State(net))
    {
      if Quiescent(net.Model()) {
        SftpProperties.NewClientEstablishes(net.script, net.Model(), address, config);
      }
      if address == "" || config.None? {
        return Err(Text(NotInitialized));
      }
      var ssh := net.Dial(Endpoint(address, config.value));
      if ssh.Err? {
        return Err(Wrapped(SshPrefix, ssh.error));
      }
      var session := net.NewSession(ssh.value);
      if session.Err? {
        net.Close(ssh.value);
        return Err(Wrapped(SftpPrefix, session.error));
      }
      var c := new Client(address, config.value, ssh.value, session.value);
      return Ok(c);
    }

    /** `ping`: `Getwd` over the current session. */
    method Ping(net: Remote) returns (err: Option<Error>)
      modifies net
      ensures var s := Request(net.script, old(State(net)));
        err == s.out && State(net) == s.world
      ensures Consistent(old(State(net))) ==> Consistent(State(net))
    {
      err := net.Send(sftpClient);
    }

    /** One run of an operation's closure (the bodies of `list`, `create`, `get` and `delete`). */
    method Run(a: Action, net: Remote) returns (r: Result<Payload, Error>)
      modifies this`attempts, net
      ensures var s := Attempt(net.script, old(State(net)), a);
        r == s.out && State(net) == s.world
      ensures Consistent(old(State(net))) ==> Consistent(State(net))
    {
      if Consistent(State(net)) {
        SftpProperties.AttemptConsistent(net.script, State(net), a);
      }
      attempts := attempts + 1;
      var gen := sftpClient.gen;
      var e := net.Send(sftpClient);
      match a
      case MakeFile(dir, path) =>
        if e.Some? {
          r := Err(Wrapped(CreateDirPrefix(dir), e.value));
        } else {
          var e2 := net.Send(sftpClient);
          if e2.Some? {
            r := Err(Wrapped(CreateFilePrefix(path), e2.value));
          } else {
            r := Ok(Served(a, gen));
          }
        }
      case _ =>
        r := Reply(e, Served(a, gen));
    }

    /** `doReconnect`. */
    method DoReconnect(net: Remote) returns (err: Option<Error>)
      modifies this, net
      ensures var s := Reconnect(net.script, old(State(net)));
        err == s.out && State(net) == s.world
      ensures Consistent(old(State(net))) ==> Consistent(State(net))
    {
      ghost var w := State(net);
      if Consistent(w) {
        SftpProperties.ReconnectConsistent(net.script, w);
      }
      var probe := Ping(net);
      if !ShouldReconnect(probe) {
        return None;
      }
      var ssh := net.Dial(Endpoint(address, config));
      if ssh.Err? {
        return Some(Wrapped(SshPrefix, ssh.error));
      }
      var session := net.NewSession(ssh.value);
      if session.Err? {
        net.Close(ssh.value);
        return Some(Wrapped(SftpPrefix, session.error));
      }
      // The swap: both fields change together, then the old pair is closed.
      var oldSftp, oldSsh := sftpClient, sshClient;
      sftpClient, sshClient := session.value, ssh.value;
      reconnects := reconnects + 1;
      net.Close(oldSftp);
      net.Close(oldSsh);
      return None;
    }

    /** `withReconnection`. */
    method WithReconnection(a: Action, net: Remote) returns (r: Result<Payload, Error>)
      modifies this, net
      ensures var s := SftpSpec.WithReconnection(net.script, old(State(net)), a);
        r == s.out && State(net) == s.world
      ensures Consistent(old(State(net))) ==> Consistent(State(net))
    {
      ghost var w := State(net);
      if Consistent(w) {
        SftpProperties.WithReconnectionConsistent(net.script, w, a);
      }
      r := Run(a, net);
      if r.Ok? || !ShouldReconnect(Some(r.error)) {
        return;
      }
      var first := r.error;
      var rErr := DoReconnect(net);
      if rErr.Some? {
        return Err(Joined(first, rErr.value));
      }
      r := Run(a, net);
    }

    /** `list`: the directory listing, served by the session current when it succeeded. */
    method List(path: string, net: Remote) returns (r: Result<Payload, Error>)
      modifies this, net
      ensures var s := SftpSpec.WithReconnection(net.script, old(State(net)), ReadDir(path));
        r == s.out && State(net) == s.world
      ensures Consistent(old(State(net))) ==> Consistent(State(net))
      ensures r.Ok? ==> r.value == Entries(path, sftpClient.gen)
    {
      SftpProperties.WithReconnectionServedByCurrent(net.script, State(net), ReadDir(path));
      r := WithReconnection(ReadDir(path), net);
    }

    /** `create`: split the path, make the parent directory, create the file; the file name comes back with it. */
    method Create(path: string, net: Remote) returns (r: Result<Payload, Error>, fileName: string)
      modifies this, net
      ensures var s := SftpSpec.WithReconnection(net.script, old(State(net)), MakeFile(Split(path).0, path));
        r == s.out && State(net) == s.world
      ensures Consistent(old(State(net))) ==> Consistent(State(net))
      ensures r.Ok? ==> r.value == File(path, sftpClient.gen) && fileName == Split(path).1
      ensures r.Err? ==> fileName == ""
    {
      var (dir, name) := Split(path);
      SftpProperties.WithReconnectionServedByCurrent(net.script, State(net), MakeFile(dir, path));
      r := WithReconnection(MakeFile(dir, path), net);
      fileName := if r.Ok? then name else "";
    }

    /** `get`: open the file for reading. */
    method Get(path: string, net: Remote) returns (r: Result<Payload, Error>)
      modifies this, net
      ensures var s := SftpSpec.WithReconnection(net.script, old(State(net)), Open(path));
        r == s.out && State(net) == s.world
      ensures Consistent(old(State(net))) ==> Consistent(State(net))
      ensures r.Ok? ==> r.value == File(path, sftpClient.gen)
    {
      SftpProperties.WithReconnectionServedByCurrent(net.script, State(net), Open(path));
      r := WithReconnection(Open(path), net);
    }

    /** `delete`: remove the path; only the error comes back. */
    method Delete(path: string, net: Remote) returns (err: Option<Error>)
      modifies this, net
      ensures var s := SftpSpec.WithReconnection(net.script, old(State(net)), Remove(path));
        err == (if s.out.Ok? then None else Some(s.out.error)) && State(net) == s.world
      ensures Consistent(old(State(net))) ==> Consistent(State(net))
    {
      var r := WithReconnection(Remove(path), net);
      err := if r.Ok? then None else Some(r.error);
    }
  }
}
