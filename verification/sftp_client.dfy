/** The connection-managed SFTP client: a struct holding two nil-able handles,
    the SFTP layer (`client`) and the SSH transport under it (`sshClient`).
    `Connect`, `Close` and `StatVFS` hold the struct's mutex throughout;
    `SupportsStatVFS` touches the state only through its locked `StatVFS`
    call. So each is modelled as one atomic step: a pure function from the
    current state and the outcomes of the library calls it makes to the next
    state, the value it returns and the library calls it made, in order. */
module SftpClient {
  import opened Wrappers
  import opened Strings

  /** Identity of an `*ssh.Client` returned by the transport constructor. */
  datatype SshHandle = SshHandle(id: nat)

  /** Identity of an `*sftp.Client` returned by the SFTP constructor. */
  datatype SftpHandle = SftpHandle(id: nat)

  /** A Go `error`, observed only through the text its `Error()` returns. */
  datatype Error = Error(text: string)

  /** The statistics of a remote statvfs request (the `sftp.StatVFS` record). */
  datatype VfsStats = VfsStats(
    id: nat, bsize: nat, frsize: nat, blocks: nat, bfree: nat, bavail: nat,
    files: nat, ffree: nat, favail: nat, fsid: nat, flag: nat, namemax: nat)

  /** `sftp.ErrSSHFxNoConnection`, returned when no SFTP layer is present. */
  const NoConnection: Error := Error("no connection")

  /** The name of the SFTP status code 8 (section 7 of
      draft-ietf-secsh-filexfer-02), which a server uses to refuse a request
      it does not implement. */
  const OpUnsupported: string := "SSH_FX_OP_UNSUPPORTED"

  /** The path the capability probe asks about. */
  const ProbePath: string := "/"

  /** The `sftpClient` struct; the mutex is not part of the state. */
  datatype Client = Client(client: Option<SftpHandle>, sshClient: Option<SshHandle>)

  /** A call into the ssh or sftp library, with the handle it returned. */
  datatype Call =
    | DialSsh(dialed: Option<SshHandle>)                 // NewSSHClient()
    | OpenSftp(over: SshHandle, built: Option<SftpHandle>) // sftp.NewClient(sshClient)
    | CloseSftp(sftp: SftpHandle)                         // client.Close()
    | CloseSsh(ssh: SshHandle)                            // sshClient.Close()
    | RemoteStatVFS(sftp: SftpHandle, path: string)       // client.StatVFS(path)

  /** One atomic method call: the state afterwards, the value returned and the
      library calls made. */
  datatype Step<T> = Step(after: Client, out: T, calls: seq<Call>)

  /** Both handles are present: the only state `Connect` leaves alone and the
      only state in which `Close` does anything. */
  predicate Connected(c: Client) {
    c.client.Some? && c.sshClient.Some?
  }

  /** `NewSFTPClient`: the zero value of the struct. */
  function NewSFTPClient(): (c: Client)
    ensures !Connected(c)
    ensures c.client.None? && c.sshClient.None?
  {
    Client(None, None)
  }

  /** `Close`: tears down the SFTP layer, then the transport. `sftpErr` and
      `sshErr` are what the two library `Close` calls would return. */
  function Close(c: Client, sftpErr: Option<Error>, sshErr: Option<Error>): (r: Step<Outcome<Error>>)
    // Nothing to do unless both handles are present.
    ensures !Connected(c) ==> r == Step(c, Pass, [])
    // Ordered teardown: SFTP is always closed first, SSH only after it.
    ensures Connected(c) ==>
      && 1 <= |r.calls|
      && r.calls <= [CloseSftp(c.client.value), CloseSsh(c.sshClient.value)]
    // A failed SFTP close is reported and the transport is not touched.
    ensures Connected(c) && sftpErr.Some? ==> r.out == Fail(sftpErr.value) && |r.calls| == 1
    // A failed SSH close is reported after the SFTP layer was closed.
    ensures Connected(c) && sftpErr.None? && sshErr.Some? ==> r.out == Fail(sshErr.value) && |r.calls| == 2
    // Either failure keeps both fields, closed handles included.
    ensures r.out.Fail? ==> r.after == c
    // Only a fully successful teardown clears the fields.
    ensures Connected(c) && sftpErr.None? && sshErr.None? ==>
      r.out == Pass && r.after == NewSFTPClient() && |r.calls| == 2
    // Close reports success exactly when it leaves the client not connected.
    ensures r.out.Pass? <==> !Connected(r.after)
  {
    if c.client.None? || c.sshClient.None? then
      Step(c, Pass, [])
    else if sftpErr.Some? then
      Step(c, Fail(sftpErr.value), [CloseSftp(c.client.value)])
    else if sshErr.Some? then
      Step(c, Fail(sshErr.value), [CloseSftp(c.client.value), CloseSsh(c.sshClient.value)])
    else
      Step(Client(None, None), Pass, [CloseSftp(c.client.value), CloseSsh(c.sshClient.value)])
  }

  /** `Connect`: builds the transport, then the SFTP layer over it. `dial` is
      the outcome of `NewSSHClient()`, `open` that of `sftp.NewClient`. The
      error of the transport close on the SFTP failure path is discarded by
      the code, so it is not a parameter. */
  function Connect(c: Client, dial: Result<SshHandle, Error>, open: Result<SftpHandle, Error>): (r: Step<Outcome<Error>>)
    // Already connected: no error, no change, no handshake.
    ensures Connected(c) ==> r == Step(c, Pass, [])
    // Otherwise the transport constructor is always called first.
    ensures !Connected(c) ==> 1 <= |r.calls| && r.calls[0] == DialSsh(dial.ToOption())
    // A failed transport: its error is returned, the SFTP constructor is
    // never called and the `client` field is untouched.
    ensures !Connected(c) && dial.Failure? ==>
      && r.out == Fail(dial.error)
      && r.calls == [DialSsh(None)]
      && r.after.client == c.client
      && r.after.sshClient.None?
    // Both constructors succeed: both handles present, SFTP over the new transport.
    ensures !Connected(c) && dial.Success? && open.Success? ==>
      && r.out == Pass
      && r.after == Client(Some(open.value), Some(dial.value))
      && r.calls[1..] == [OpenSftp(dial.value, Some(open.value))]
    // A failed SFTP layer: the fresh transport is closed and the original
    // error returned, yet `sshClient` still holds the closed handle.
    ensures !Connected(c) && dial.Success? && open.Failure? ==>
      && r.out == Fail(open.error)
      && r.after == Client(None, Some(dial.value))
      && r.calls[1..] == [OpenSftp(dial.value, None), CloseSsh(dial.value)]
    // Connect reports success exactly when it leaves both handles present.
    ensures r.out.Pass? <==> Connected(r.after)
  {
    if c.sshClient.Some? && c.client.Some? then
      Step(c, Pass, [])
    else
      match dial
      case Failure(e) =>
        Step(Client(c.client, None), Fail(e), [DialSsh(None)])
      case Success(ssh) =>
        match open
        case Failure(e) =>
          Step(Client(None, Some(ssh)), Fail(e),
               [DialSsh(Some(ssh)), OpenSftp(ssh, None), CloseSsh(ssh)])
        case Success(sftp) =>
          Step(Client(Some(sftp), Some(ssh)), Pass,
               [DialSsh(Some(ssh)), OpenSftp(ssh, Some(sftp))])
  }

  /** `StatVFS(path)`: delegates to the SFTP layer when there is one. `remote`
      is what the remote statvfs request would return. */
  function StatVFS(c: Client, path: string, remote: Result<VfsStats, Error>): (r: Step<Result<VfsStats, Error>>)
    ensures r.after == c
    ensures c.client.None? ==> r.out == Failure(NoConnection) && r.calls == []
    ensures c.client.Some? ==> r.out == remote && r.calls == [RemoteStatVFS(c.client.value, path)]
  {
    match c.client
    case None => Step(c, Failure(NoConnection), [])
    case Some(sftp) => Step(c, remote, [RemoteStatVFS(sftp, path)])
  }

  /** The error classifier of the capability probe: only an error naming the
      unsupported-operation status means "not supported". */
  function ProbeSaysSupported(probe: Result<VfsStats, Error>): (supported: bool)
    ensures !supported <==> probe.Failure? && IsSubstring(OpUnsupported, probe.error.text)
  {
    !(probe.Failure? && Contains(probe.error.text, OpUnsupported))
  }

  /** `SupportsStatVFS`: probes "/" and classifies the outcome. `remote` is
      what the remote statvfs request on "/" would return. */
  function SupportsStatVFS(c: Client, remote: Result<VfsStats, Error>): (r: Step<bool>)
    ensures r.after == c
    // false exactly when the remote probe ran and failed with the marker.
    ensures !r.out <==> c.client.Some? && remote.Failure? && IsSubstring(OpUnsupported, remote.error.text)
    // With no SFTP layer the no-connection error counts as "supported".
    ensures c.client.None? ==> r.out && r.calls == []
    ensures c.client.Some? ==> r.calls == [RemoteStatVFS(c.client.value, ProbePath)]
  {
    var probe := StatVFS(c, ProbePath, remote);
    Step(c, ProbeSaysSupported(probe.out), probe.calls)
  }
}
