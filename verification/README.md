# sftp-exporter connection lifecycle, in Dafny

This project models the connection-managed SFTP client of sftp-exporter
(`pkg/client/sftp_client.go`), a Prometheus exporter that reports the
capacity and contents of a remote directory tree over SFTP. The client
struct `sftpClient` holds two nil-able handles:

- `client` is the SFTP layer;
- `sshClient` is the SSH transport under it.

The struct has five methods: `Connect`, `Close`, `StatVFS`, `Walk` and
`SupportsStatVFS`. There is also the constructor `NewSFTPClient`. `Walk` is
not modelled (see "## Left out").

`Connect`, `Close` and `StatVFS` each hold the struct's mutex for their whole
body, so each is modelled as a single atomic step. `SupportsStatVFS` takes no
lock itself. Its only access to the state is the locked `StatVFS("/")` call,
and its classification of the result reads no field. So it is one atomic
step as well. Each method is a pure function in module `SftpClient`
(`sftp_client.dfy`). It takes the current `Client` and the outcomes of the
library calls it makes:

- the result of `NewSSHClient()` and of `sftp.NewClient`;
- the error of each `Close` call;
- the result of the remote statvfs request.

It returns a `Step`: the state afterwards, the value the Go method returns,
and the library calls it made, in order. Handles are opaque identities.
Go errors are represented by their `Error()` text.

Other files:

- `strings.dfy` (module `Strings`) models Go's `strings.Contains`. It is
  proved equal to a reference "some occurrence exists" predicate.
- `lifecycle.dfy` (module `Lifecycle`) replays any sequence of method calls
  from `NewSFTPClient()`. It proves that every such history keeps the
  handles accounted for:
  - an SFTP layer is never held without a transport;
  - the held SFTP layer was built over the held transport;
  - a transport held without an SFTP layer has already been closed;
  - every handle a constructor returned is either still held or closed.
- `consequences.dfy` (module `Consequences`) states what the code implies
  across several calls. It covers idempotence, and the "half" and
  stale-handle states that failed calls leave behind.
- `wrappers.dfy` (module `Wrappers`) holds `Option`, `Result` and `Outcome`.
  They stand for Go's nil-able pointers, `(value, error)` pairs and bare
  `error` returns.

## States the code leaves behind

The model follows the code as written. The source's comments describe the
states its authors had in mind: "Already closed or never connected" (line
34), "Set clients to nil after closing" (line 46) and "Already connected"
(line 57). Read this way, a client is either connected, with both handles
set, or closed, with both nil. Failed calls can leave two other states:

- **A failed `Close` keeps the fields.** The code returns at the first
  close error and keeps both fields (lines 37-44). It does not try the SSH
  close after an SFTP close error. A later `Connect` then does nothing,
  because it treats the client as "Already connected" (lines 56-58); see
  `Consequences.FailedCloseMakesConnectNoop`. When the SFTP close succeeds
  but the SSH close fails, the struct keeps an SFTP handle that is already
  closed. `StatVFS` keeps sending requests through it, and the next `Close`
  closes it again; see `Consequences.TransportCloseFailureKeepsClosedSftp`
  and `Consequences.StaleSftpIsReachable`.
- **A failed SFTP constructor leaves a "half" state.** After the SFTP
  constructor fails, the code leaves `client` nil and `sshClient` holding
  the closed transport (lines 65-70); see
  `Consequences.HalfStateIsReachable`. The opposite half state, with an
  SFTP layer but no transport, is unreachable (`Lifecycle.NoClientWithoutTransport`,
  part of `Lifecycle.Replay`'s contract). The transport in the half state is
  always closed, so nothing leaks. A `Close` in this state takes the
  "Already closed or never connected" return (line 34).

## Model

| member | source | states |
|---|---|---|
| SftpClient.NewSFTPClient | pkg/client/sftp_client.go:102-104 | a new client holds neither handle and so is not connected |
| SftpClient.Close | pkg/client/sftp_client.go:29-50 | with either handle missing: returns nil, no calls, no change; otherwise closes SFTP first and SSH only after it; an SFTP close error is returned without touching SSH; an SSH close error is returned after the SFTP close; any failure keeps both fields; only full success clears both; returns nil exactly when it leaves the client not connected |
| SftpClient.Connect | pkg/client/sftp_client.go:52-73 | when connected: nil, no change, no handshake; otherwise dials SSH first; a dial error is returned, the SFTP constructor is not called, `client` is untouched and `sshClient` ends nil; both constructors succeeding leaves both handles set, SFTP over the new transport; an SFTP error closes the new transport, is returned unchanged and leaves `sshClient` on the closed handle; returns nil exactly when it leaves both handles present |
| SftpClient.StatVFS | pkg/client/sftp_client.go:75-83 | never changes the state; with no SFTP handle it returns the no-connection error and makes no remote call; otherwise it returns exactly the remote result, after one remote call on the held handle for the given path |
| SftpClient.ProbeSaysSupported | pkg/client/sftp_client.go:93-99 | the probe outcome means "unsupported" exactly when it is an error whose text contains `SSH_FX_OP_UNSUPPORTED` |
| SftpClient.SupportsStatVFS | pkg/client/sftp_client.go:92-100 | false exactly when an SFTP handle is held and the remote probe of "/" fails with an error containing `SSH_FX_OP_UNSUPPORTED`; true on success, on every other error and with no connection, when no remote call is made |
| Strings.ContainsFrom | pkg/client/sftp_client.go:95 | the scan from an index finds `sub` exactly when an occurrence starts at or after that index |
| Strings.Contains | pkg/client/sftp_client.go:95 | `strings.Contains` holds exactly when some occurrence of `sub` exists; the empty string is always contained; a longer string never is |
| Lifecycle.StepKeepsAccounted | pkg/client/sftp_client.go:29-83 | any one method call keeps the handle-accounting invariant: no SFTP layer without transport; SFTP over the held transport; half state only on a closed transport; every constructed handle held or closed |
| Lifecycle.Replay | pkg/client/sftp_client.go:22-26 | every sequence of method calls on a new client ends in a state and call history that satisfy the handle-accounting invariant |
| Lifecycle.NeverConnectedStaysEmpty | pkg/client/sftp_client.go:33-34 | a client never asked to connect stays empty and makes no library call, however often it is closed, queried or probed |
| Consequences.ConnectIsIdempotent | pkg/client/sftp_client.go:56-58 | a second `Connect` after a successful one returns nil, changes nothing and makes no handshake |
| Consequences.CloseIsIdempotent | pkg/client/sftp_client.go:46-49 | a second `Close` after a successful one returns nil and closes nothing |
| Consequences.OpenFailureLeavesClosedTransport | pkg/client/sftp_client.go:65-70 | after an SFTP constructor failure, the fresh transport has been closed and stays in `sshClient`; a later `Close` returns nil with no calls, so the transport is closed once; `StatVFS` reports no connection |
| Consequences.FailedCloseMakesConnectNoop | pkg/client/sftp_client.go:37-44 | after a failed `Close`, the next `Connect` sees both handles and does nothing |
| Consequences.TransportCloseFailureKeepsClosedSftp | pkg/client/sftp_client.go:41-44 | when only the SSH close fails, the closed SFTP handle stays held; `StatVFS` calls through it and the next `Close` closes it again |
| Consequences.HalfStateIsReachable | pkg/client/sftp_client.go:65-70 | from a new client, one `Connect` with a failing SFTP constructor reaches `client` nil and `sshClient` set |
| Consequences.StaleSftpIsReachable | pkg/client/sftp_client.go:37-44 | from a new client, a successful `Connect` then a `Close` whose SSH close fails leaves the client "connected" through an SFTP handle that is closed |

## Left out

- `Walk` (lines 85-90): it forwards to `fs.WalkFS` from the `kr/fs` library. That traversal code is not part of this model.
- `NewSSHClient`, `sftp.NewClient`, the `Close` methods and the remote `StatVFS` are library or network code. Their outcomes are parameters of each operation.
- Go's convention for constructor results is assumed: a constructor that returns an error returns a nil handle, and one that succeeds returns a non-nil handle. This is why `Result` is used, and why `Connect` sets a field to nil on the error path.
- Handle identities are supplied by the outcome parameters and are not required to be fresh. The no-leak invariant holds without freshness.
- The text of `sftp.ErrSSHFxNoConnection` is taken as "no connection" (from the sftp library, which is not part of this model). The proofs use only the fact that this text does not contain `SSH_FX_OP_UNSUPPORTED`.
- The error returned by the transport close on `Connect`'s SFTP failure path is discarded by the code, so it is not modelled.
- The `sync.Mutex`: each locked method is one atomic step, and interleavings are not modelled.
- Logging (logrus calls) is a side effect only.
- `pkg/server/server.go` (HTTP routing, metric registration, the health handler) is I/O plumbing.
- The collector and its aggregation are not part of this model.
- Go strings are byte sequences; the model uses `seq<char>`. Substring search gives the same answer on either representation.
