# SFTP reconnect-and-retry client and Kinesis helpers, modelled in Dafny

This project models two pieces of a Dapr components repository.

**The SFTP binding's client** (`bindings/sftp/sftp_client.go`). A `Client` holds an SSH
connection and an SFTP session opened over it. Every remote operation (`list`, `create`,
`get`, `delete`) is a closure that runs through `withReconnection`:

- run the closure once;
- on success, or on a *logical* error, return at once;
- otherwise call `doReconnect`, and if that fails return the original error joined with the
  reconnect error;
- otherwise run the closure exactly once more and return whatever it gives.

An error is logical when it is, or wraps, one of the SFTP status errors "permission denied",
"no such file" or "op unsupported" (`shouldReconnect`). Every other error counts as a
transport failure. `doReconnect` first probes the session (`ping`, a `Getwd`). Only when
the probe shows a transport failure does it dial a new SSH connection and open an SFTP
session over it, closing the new connection if the session cannot be opened. It then swaps
both handles together and closes the old pair.

**The Kinesis helpers** (`common/aws/kinesis.go`):

- `NewKinesisWorkerConfig` validates the consumer mode, then the region, and builds a KCL
  configuration.
- `StreamARN` refuses a nil client, passes describe errors through, refuses an empty
  description, and otherwise returns the stream's ARN.

## How the model is built

- `errors.dfy` (module `Errors`) holds Go error values: SFTP status sentinels, opaque
  errors, `%w` wrapping and `errors.Join`. It also holds `errors.Is` against a sentinel and
  the classifier `ShouldReconnect`. The classifier's contract gives an independent meaning:
  the error tree holds none of the three logical statuses.
- `sftp_spec.dfy` (module `SftpSpec`) is the behaviour of the client as pure functions.
  A `World` is the client's fields plus what the outside world has seen: every dial target,
  the session each request was sent over, and every handle created or closed.
  - The network and the SSH/SFTP libraries are a `Script`. It gives the outcome of the n-th
    dial, of the SFTP handshake over the connection of generation g, and of the n-th request.
  - A handle is named by its generation: the number of the dial that made the connection.
    The SFTP session over that connection carries the same number.
  - `Consistent` is the client invariant. Both handles have one generation. That
    connection was dialled to the client's own address and config. The handles left open
    are exactly the current pair.
- `sftp_properties.dfy` (modules `SftpProperties`, `SftpScenarios`) proves what the source
  promises of those functions. It also replays the integration test's delete scenarios.
- `sftp_client.dfy` (module `SftpClient`) is the imperative client.
  - `Client` is a class whose methods reassign its `sshClient`/`sftpClient` fields in place.
    `address` and `config` are `const`, as the source never reassigns them.
  - `Remote` is a class standing for the network and libraries, answering from the script.
  - Each method is proved to move the pair (client, remote) exactly as the matching
    `SftpSpec` function says. Every `Client` method keeps `Consistent`; `NewClient`
    establishes it on a network with nothing open.
  - Two ghost counters let the proofs count closure runs and swaps.
- `sftp.Split` is modelled as `SftpSpec.Split`; it is Go's `path.Split`.
- `kinesis.dfy` (module `Kinesis`) holds the two validators as pure functions over abstract
  records for the AWS config, the KCL configuration and the `DescribeStream` response.

`ping` is used only as the probe inside `doReconnect`; it is not itself wrapped in
`withReconnection`.

## Model

| member | source | states |
|---|---|---|
| `Errors.Is` | bindings/sftp/sftp_client.go:237-239 | `errors.Is` against a status sentinel: the error itself, or through `%w` and `errors.Join`, is that sentinel |
| `Errors.IsInTree` | bindings/sftp/sftp_client.go:237-239 | `errors.Is` finds a status sentinel exactly when it occurs anywhere in the error's wrap/join tree |
| `Errors.ShouldReconnect` | bindings/sftp/sftp_client.go:231-246 | reconnect exactly when the error is non-nil and its tree holds none of permission-denied, no-such-file, op-unsupported |
| `Errors.StatusClass` | bindings/sftp/sftp_client.go:236-245 | among the SFTP status errors, only the three logical codes avoid a reconnect (EOF, connection lost, failure, ... reconnect) |
| `Errors.TextReconnects` | bindings/sftp/sftp_client.go:243-245 | any unrecognised error is treated as a transport failure |
| `Errors.WrapAll` | bindings/sftp/sftp_client.go:99-104 | wrapping with `%w` keeps every wrapped error in the tree |
| `Errors.WrapAllKeepsClass` | bindings/sftp/sftp_client.go:237-239 | wrapping with `%w` any number of times never changes the classification |
| `SftpSpec.Request` | bindings/sftp/sftp_client.go:154-162 | one request over the current SFTP session, as `ping`'s `Getwd`, answered from the script |
| `SftpSpec.Attempt` | bindings/sftp/sftp_client.go:70-152 | one run of an operation's closure: a single request for list, get and delete; `MkdirAll` then `Create` for create, each failure wrapped with its own prefix |
| `SftpSpec.Connect` | bindings/sftp/sftp_client.go:200-209 | dial, then open an SFTP session over the new connection, closing that connection when the session fails; each failure wrapped with its own prefix |
| `SftpSpec.NewClient` | bindings/sftp/sftp_client.go:39-61 | refuse an empty address or nil config, otherwise connect and hold the new pair |
| `SftpSpec.Reconnect` | bindings/sftp/sftp_client.go:190-228 | probe; only on a transport failure connect, swap in the new pair and close the old one |
| `SftpSpec.WithReconnection` | bindings/sftp/sftp_client.go:164-188 | run; return success or a logical error; else reconnect, joining errors if that fails; else run once more and return that |
| `SftpSpec.Split` | bindings/sftp/sftp_client.go:90 | the parent directory and file name concatenate to the path, the name has no '/', the directory is empty or ends in '/' |
| `SftpProperties.SplitUnique` | bindings/sftp/sftp_client.go:90 | those three properties determine the split uniquely |
| `SftpProperties.AttemptUsesCurrentSession` | bindings/sftp/sftp_client.go:70-152 | a closure run sends one or two requests over the current session, dials, opens and closes nothing, and its payload comes from the current generation |
| `SftpProperties.AttemptConsistent` | bindings/sftp/sftp_client.go:70-152 | a closure run keeps the client invariant |
| `SftpProperties.NewClientRejectsMissingParameters` | bindings/sftp/sftp_client.go:39-42 | an empty address or nil config gives "client not initialized" and nothing is dialled |
| `SftpProperties.NewClientEstablishes` | bindings/sftp/sftp_client.go:39-61 | success exactly when parameters are present and dial and handshake succeed; then a consistent fresh pair of one generation, zero reconnects; on failure no handle is left open |
| `SftpProperties.ReconnectSkippedWhenHealthy` | bindings/sftp/sftp_client.go:194-198 | when the probe succeeds or fails logically: no error, client unchanged, nothing dialled, only the probe was sent |
| `SftpProperties.ReconnectDialFailure` | bindings/sftp/sftp_client.go:200-203 | a failed dial returns the wrapped dial error and leaves the session and all handles as they were |
| `SftpProperties.ReconnectHandshakeFailure` | bindings/sftp/sftp_client.go:205-209 | a failed SFTP handshake returns the wrapped error, closes the freshly dialled connection and keeps the old pair |
| `SftpProperties.ReconnectSwapsPair` | bindings/sftp/sftp_client.go:211-224 | a successful reconnect installs a fresh pair of one new generation, closes both old handles, counts one swap and keeps the invariant |
| `SftpProperties.ReconnectConsistent` | bindings/sftp/sftp_client.go:190-228 | every outcome of `doReconnect` keeps the invariant and the connection parameters, and dials at most once, to the client's own endpoint |
| `SftpProperties.FirstSuccess` | bindings/sftp/sftp_client.go:166-169 | first run succeeds: its result, one run, no reconnect, no dial |
| `SftpProperties.LogicalErrorReturned` | bindings/sftp/sftp_client.go:172-174 | first run fails logically: that very error, one run, session and reconnect count unchanged |
| `SftpProperties.ReconnectFailureJoined` | bindings/sftp/sftp_client.go:176-179 | transport failure and failed reconnect: `Joined(original, reconnect error)`, the closure is not run again, the session is kept |
| `SftpProperties.RetriedOnce` | bindings/sftp/sftp_client.go:180-187 | transport failure and successful reconnect: exactly two runs, and the second run's result is returned as it is, logical or transport error included |
| `SftpProperties.BoundedRetry` | bindings/sftp/sftp_client.go:164-188 | for every script: one or two runs, at most one swap, at most one dial (to the client's own endpoint), address and config unchanged |
| `SftpProperties.WithReconnectionConsistent` | bindings/sftp/sftp_client.go:164-188 | `withReconnection` keeps both handles in one generation and nothing but the current pair open |
| `SftpProperties.WithReconnectionServedByCurrent` | bindings/sftp/sftp_client.go:164-188 | a successful result is the operation's payload served by the session current afterwards, the new one after a swap |
| `SftpScenarios.DeleteMissingFile` | bindings/sftp/sftp_integration_test.go:163-175 | deleting a missing file on a healthy connection: "no such file" and no reconnection |
| `SftpScenarios.DeleteMissingFileAfterSever` | bindings/sftp/sftp_integration_test.go:177-190 | deleting a missing file after the connection was cut: one reconnection, then "no such file"; the old pair is closed |
| `SftpClient.Remote.Dial` | bindings/sftp/sftp_client.go:200 | `ssh.Dial`: records the target and, on success, creates the connection of the next generation |
| `SftpClient.Remote.NewSession` | bindings/sftp/sftp_client.go:205 | `sftp.NewClient`: on success creates the session of the connection's generation |
| `SftpClient.Remote.Send` | bindings/sftp/sftp_client.go:157 | one request over the given session: the session is logged and the reply comes from the script |
| `SftpClient.Remote.Close` | bindings/sftp/sftp_client.go:207 | closing a handle adds it to the closed set |
| `SftpClient.Client.constructor` | bindings/sftp/sftp_client.go:55-60 | the client holds the given address, config and handle pair |
| `SftpClient.Client.NewClient` | bindings/sftp/sftp_client.go:39-61 | behaves as `SftpSpec.NewClient`, returning a fresh client, which is consistent when nothing was open before |
| `SftpClient.Client.Ping` | bindings/sftp/sftp_client.go:154-162 | sends one request over the current session and returns its error; keeps the invariant |
| `SftpClient.Client.Run` | bindings/sftp/sftp_client.go:70-152 | one closure run, changing only the run counter and the remote, as `SftpSpec.Attempt`; keeps the invariant |
| `SftpClient.Client.DoReconnect` | bindings/sftp/sftp_client.go:190-228 | updates the handles in place as `SftpSpec.Reconnect` and keeps the invariant |
| `SftpClient.Client.WithReconnection` | bindings/sftp/sftp_client.go:164-188 | behaves as `SftpSpec.WithReconnection` and keeps the invariant |
| `SftpClient.Client.List` | bindings/sftp/sftp_client.go:70-87 | the listing comes back from the session current afterwards; keeps the invariant |
| `SftpClient.Client.Create` | bindings/sftp/sftp_client.go:89-116 | the created file and its name from `Split`, or an error and an empty name; keeps the invariant |
| `SftpClient.Client.Get` | bindings/sftp/sftp_client.go:118-135 | the opened file comes back from the session current afterwards; keeps the invariant |
| `SftpClient.Client.Delete` | bindings/sftp/sftp_client.go:137-152 | the error `withReconnection` returns for the removal, as in `SftpSpec.WithReconnection`, nil on success; keeps the invariant |
| `Kinesis.NewKinesisWorkerConfig` | common/aws/kinesis.go:33-48 | the mode error for any mode but "shared" (checked before the region); then the region error for an empty region; otherwise success, with stream, consumer as application and worker, the region, and exactly the given credentials (none when nil) |
| `Kinesis.Message` | common/aws/kinesis.go:16-41 | the text of each error: "kinesis client is nil", "empty stream description", "unsupported consumer mode" with the quoted mode, "region is required for Kinesis worker config", a service error's own text |
| `Kinesis.UnsupportedModeMessage` | common/aws/kinesis.go:35-37 | the unsupported-mode error names the refused mode |
| `Kinesis.StreamARN` | common/aws/kinesis.go:14-26 | a nil client gives "kinesis client is nil"; describe errors pass through; a nil description gives "empty stream description"; otherwise the description's ARN; every error comes with a nil ARN |

## Left out

- Locking (`lock`, `rLock`): the model is sequential. The swap of both handles is one
  assignment. The serialisation of concurrent reconnects by `rLock` is not modelled.
- Logging (`log.Debug*`): it has no effect on results.
- `Client.Close` (bindings/sftp/sftp_client.go:63-68): it is teardown only.
- The real SSH and SFTP libraries (`ssh.Dial`, `sftp.NewClient`, `ReadDir`, `MkdirAll`,
  `Create`, `Open`, `Remove`, `Getwd`) are replaced by scripted outcomes. Payloads are
  abstract: a listing or file is named by its path and the session generation that served it.
  A request on a closed handle is answered from the script like any other.
  A scripted reply stands for the library's error as `errors.Is` sees it. Whether the real
  SFTP library returns the status sentinels (rather than, say, `os.ErrNotExist`) is not
  modelled; the delete scenarios assume it does.
- The order of the two closes in `doReconnect` is not kept: the closed handles are a set.
  The `oldSftp != nil` / `oldSSH != nil` checks are not modelled, because the handles are
  never nil once a client exists.
- Error messages are kept as prefix and wrapped error. `errors.Join`'s newline formatting is
  not kept. `errors.Is` is modelled only for the SFTP status sentinels, with no custom
  `Is`/`Unwrap` methods.
- `*ssh.ClientConfig` is reduced to a user name, and `aws.Config` to region and credentials.
  The KCL configuration keeps only the fields the helper sets, not the library's defaults.
- `Kinesis.Message` and `Kinesis.UnsupportedModeMessage`: `%q` is modelled as plain double
  quotes, without Go's escaping of special characters.
- The `context.Context` argument of `StreamARN` is left out. The `DescribeStream` call is a
  function of the stream name.
- The Kinesis binding's metadata parsing and `Read` (bindings/aws/kinesis) are not part of
  this model.
