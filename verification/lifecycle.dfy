/** Sequences of method calls on one `sftpClient`, starting from
    `NewSFTPClient()`, and what every such history guarantees about the two
    handles. Each method is one atomic step because the struct's mutex
    serialises them (`SupportsStatVFS` reaches the state only through the
    locked `StatVFS`); interleavings inside a method are not modelled. */
module Lifecycle {
  import opened Wrappers
  import opened SftpClient

  /** One method call together with the outcomes of the library calls it may make. */
  datatype Op =
    | ConnectOp(dial: Result<SshHandle, Error>, open: Result<SftpHandle, Error>)
    | CloseOp(sftpErr: Option<Error>, sshErr: Option<Error>)
    | StatVFSOp(path: string, remote: Result<VfsStats, Error>)
    | ProbeOp(remote: Result<VfsStats, Error>)

  /** The state after a sequence of method calls and every library call made on the way. */
  datatype History = History(state: Client, calls: seq<Call>)

  /** The state change and library calls of one method call. */
  function Apply(c: Client, op: Op): History {
    match op
    case ConnectOp(dial, open) =>
      var r := Connect(c, dial, open); History(r.after, r.calls)
    case CloseOp(sftpErr, sshErr) =>
      var r := Close(c, sftpErr, sshErr); History(r.after, r.calls)
    case StatVFSOp(path, remote) =>
      var r := StatVFS(c, path, remote); History(r.after, r.calls)
    case ProbeOp(remote) =>
      var r := SupportsStatVFS(c, remote); History(r.after, r.calls)
  }

  ghost predicate SshDialed(calls: seq<Call>, h: SshHandle) {
    DialSsh(Some(h)) in calls
  }

  ghost predicate SshClosed(calls: seq<Call>, h: SshHandle) {
    CloseSsh(h) in calls
  }

  ghost predicate SftpOpened(calls: seq<Call>, over: SshHandle, h: SftpHandle) {
    OpenSftp(over, Some(h)) in calls
  }

  ghost predicate SftpClosed(calls: seq<Call>, h: SftpHandle) {
    CloseSftp(h) in calls
  }

  /** An SFTP layer is never held without a transport under it. */
  ghost predicate NoClientWithoutTransport(h: History) {
    h.state.client.Some? ==> h.state.sshClient.Some?
  }

  /** The held SFTP layer was built over the held transport. */
  ghost predicate Layered(h: History) {
    h.state.client.Some? && h.state.sshClient.Some? ==>
      SftpOpened(h.calls, h.state.sshClient.value, h.state.client.value)
  }

  /** The "half" state (transport without SFTP layer) only ever holds a
      transport that has already been closed. */
  ghost predicate HalfStateIsClosed(h: History) {
    h.state.client.None? && h.state.sshClient.Some? ==>
      SshClosed(h.calls, h.state.sshClient.value)
  }

  /** No leaked handle: every handle a constructor returned is either still
      held by the struct or has been closed. */
  ghost predicate NoLeak(h: History) {
    && (forall s :: SshDialed(h.calls, s) ==> h.state.sshClient == Some(s) || SshClosed(h.calls, s))
    && (forall s, f :: SftpOpened(h.calls, s, f) ==> h.state.client == Some(f) || SftpClosed(h.calls, f))
  }

  ghost predicate Accounted(h: History) {
    NoClientWithoutTransport(h) && Layered(h) && HalfStateIsClosed(h) && NoLeak(h)
  }

  /** One method call keeps the handles accounted for. */
  lemma StepKeepsAccounted(h: History, op: Op)
    requires Accounted(h)
    ensures var e := Apply(h.state, op); Accounted(History(e.state, h.calls + e.calls))
  {
    var e := Apply(h.state, op);
    var calls' := h.calls + e.calls;
    forall s | SshDialed(calls', s)
      ensures e.state.sshClient == Some(s) || SshClosed(calls', s)
    {
      if SshDialed(h.calls, s) {
        assert h.state.sshClient == Some(s) || SshClosed(h.calls, s);
      }
    }
    forall s, f | SftpOpened(calls', s, f)
      ensures e.state.client == Some(f) || SftpClosed(calls', f)
    {
      if SftpOpened(h.calls, s, f) {
        assert h.state.client == Some(f) || SftpClosed(h.calls, f);
      }
    }
  }

  /** The history of a sequence of method calls on a fresh client. */
  function Replay(ops: seq<Op>): (h: History)
    ensures Accounted(h)
    ensures ops == [] ==> h == History(NewSFTPClient(), [])
    decreases |ops|
  {
    if ops == [] then History(NewSFTPClient(), [])
    else
      var prev := Replay(ops[..|ops| - 1]);
      var e := Apply(prev.state, ops[|ops| - 1]);
      StepKeepsAccounted(prev, ops[|ops| - 1]);
      History(e.state, prev.calls + e.calls)
  }

  /** A client that is never asked to connect makes no library call and
      stays empty, however often it is closed, queried or probed. */
  lemma {:induction false} NeverConnectedStaysEmpty(ops: seq<Op>)
    requires forall i :: 0 <= i < |ops| ==> !ops[i].ConnectOp?
    ensures Replay(ops) == History(NewSFTPClient(), [])
    decreases |ops|
  {
    if ops != [] {
      NeverConnectedStaysEmpty(ops[..|ops| - 1]);
    }
  }
}
