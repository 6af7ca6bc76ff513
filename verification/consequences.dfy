/** What the as-written lifecycle implies across several method calls,
    including the consequences of the states a failed call leaves behind. */
module Consequences {
  import opened Wrappers
  import opened SftpClient
  import opened Lifecycle

  /** A second `Connect` after a successful one performs no second handshake. */
  lemma ConnectIsIdempotent(c: Client, dial: Result<SshHandle, Error>, open: Result<SftpHandle, Error>,
                            dial': Result<SshHandle, Error>, open': Result<SftpHandle, Error>)
    requires Connect(c, dial, open).out.Pass?
    ensures var first := Connect(c, dial, open);
            Connect(first.after, dial', open') == Step(first.after, Pass, [])
  {}

  /** A second `Close` after a successful one returns nil and closes nothing. */
  lemma CloseIsIdempotent(c: Client, sftpErr: Option<Error>, sshErr: Option<Error>,
                          sftpErr': Option<Error>, sshErr': Option<Error>)
    requires Close(c, sftpErr, sshErr).out.Pass?
    ensures var first := Close(c, sftpErr, sshErr);
            !Connected(first.after) && Close(first.after, sftpErr', sshErr') == Step(first.after, Pass, [])
  {}

  /** After the SFTP constructor failed, the transport has been closed by
      `Connect` itself; the closed handle left in `sshClient` makes a later
      `Close` take its early return, so the transport is closed exactly once,
      and `StatVFS` reports no connection. */
  lemma OpenFailureLeavesClosedTransport(c: Client, ssh: SshHandle, err: Error,
                                         sftpErr: Option<Error>, sshErr: Option<Error>,
                                         path: string, remote: Result<VfsStats, Error>)
    requires !Connected(c)
    ensures var r := Connect(c, Success(ssh), Failure(err));
            && r.out == Fail(err)
            && r.after.sshClient == Some(ssh)
            && CloseSsh(ssh) in r.calls
            && Close(r.after, sftpErr, sshErr) == Step(r.after, Pass, [])
            && StatVFS(r.after, path, remote).out == Failure(NoConnection)
  {}

  /** A failed `Close` keeps both handles, so the next `Connect` believes the
      client is connected and does nothing. */
  lemma FailedCloseMakesConnectNoop(c: Client, sftpErr: Option<Error>, sshErr: Option<Error>,
                                    dial: Result<SshHandle, Error>, open: Result<SftpHandle, Error>)
    requires Connected(c)
    requires sftpErr.Some? || sshErr.Some?
    ensures var closed := Close(c, sftpErr, sshErr);
            closed.out.Fail? && Connect(closed.after, dial, open) == Step(c, Pass, [])
  {}

  /** When the SFTP layer closes but the transport close fails, the struct
      keeps the closed SFTP handle: `StatVFS` still sends requests through it,
      and the next `Close` closes it a second time. */
  lemma TransportCloseFailureKeepsClosedSftp(c: Client, err: Error, path: string, remote: Result<VfsStats, Error>,
                                             sftpErr: Option<Error>, sshErr: Option<Error>)
    requires Connected(c)
    ensures var closed := Close(c, None, Some(err));
            && closed.after == c
            && CloseSftp(c.client.value) in closed.calls
            && StatVFS(closed.after, path, remote).calls == [RemoteStatVFS(c.client.value, path)]
            && Close(closed.after, sftpErr, sshErr).calls[0] == CloseSftp(c.client.value)
  {}

  /** The half state is reachable from a fresh client: one `Connect` whose SFTP
      constructor fails leaves `client` nil and `sshClient` set. */
  lemma HalfStateIsReachable()
    ensures var h := Replay([ConnectOp(Success(SshHandle(1)), Failure(Error("handshake refused")))]);
            h.state == Client(None, Some(SshHandle(1)))
  {
    var ops := [ConnectOp(Success(SshHandle(1)), Failure(Error("handshake refused")))];
    assert ops[..0] == [];
  }

  /** The stale-handle state is reachable too: after a successful `Connect`
      and a `Close` whose transport close fails, the struct still reports
      both handles although the SFTP handle it holds has been closed. */
  lemma StaleSftpIsReachable()
    ensures var h := Replay([ConnectOp(Success(SshHandle(1)), Success(SftpHandle(2))),
                             CloseOp(None, Some(Error("close refused")))]);
            && Connected(h.state)
            && CloseSftp(SftpHandle(2)) in h.calls
            && h.state.client == Some(SftpHandle(2))
  {
    var ops := [ConnectOp(Success(SshHandle(1)), Success(SftpHandle(2))),
                CloseOp(None, Some(Error("close refused")))];
    assert ops[..1][..0] == [];
    assert ops[..1] == [ops[0]];
  }
}
