/**
 * The Docker Engine API client of apiclient.go: transport selection, the base
 * URL, and each endpoint wrapper's decision from a reply to a result or an
 * error. Requests are not sent; each wrapper takes the engine's reply.
 */
module Client {
  import opened Replies

  const UnixTransport := "unix"
  const TcpTransport := "tcp"
  const NoAddressMessage := "Either UNIX socket path or TCP HTTP address has to be provided"
  /** The status line of a pull stream that announces the pulled image's digest. */
  const DigestPrefix := "Digest: sha256:"
  const WarningPrefix := "Warning: "

  /** The client's configuration: where the engine listens and over which transport. */
  datatype APIClient = APIClient(addr: string, transport: string)

  /** `(*APIClient, error)`: a client, or no client and an error. */
  datatype Connection = Connected(client: APIClient) | NotConnected(err: Error)

  // ---------------------------------------------------------------------------
  // Strings

  predicate HasPrefix(s: string, p: string)
  {
    |p| <= |s| && s[..|p|] == p
  }

  /** `strings.TrimPrefix`: removes one leading `p`, if there is one. */
  function TrimPrefix(s: string, p: string): (r: string)
    ensures HasPrefix(s, p) ==> p + r == s
    ensures !HasPrefix(s, p) ==> r == s
  {
    if HasPrefix(s, p) then s[|p|..] else s
  }

  // ---------------------------------------------------------------------------
  // Configuration

  /** The UNIX socket wins over the TCP address; with neither there is no client. */
  function NewAPIClient(unixAddr: string, tcpAddr: string): (c: Connection)
    ensures c.Connected? <==> unixAddr != "" || tcpAddr != ""
    ensures c.Connected? ==> (c.client.transport == UnixTransport <==> unixAddr != "")
    ensures c.Connected? ==> c.client.transport in {UnixTransport, TcpTransport}
    ensures c.Connected? ==> c.client.addr == if unixAddr != "" then unixAddr else tcpAddr
    ensures c.NotConnected? ==> c.err == ConfigError(NoAddressMessage)
  {
    if unixAddr != "" then Connected(APIClient(unixAddr, UnixTransport))
    else if tcpAddr != "" then Connected(APIClient(tcpAddr, TcpTransport))
    else NotConnected(ConfigError(NoAddressMessage))
  }

  /** The URL every request path is appended to. */
  function HttpServerUrl(c: APIClient): (url: string)
    ensures c.transport == UnixTransport ==> url == "http://unix"
    ensures c.transport == TcpTransport ==> url == "http://" + c.addr
    ensures url == "" <==> c.transport !in {UnixTransport, TcpTransport}
  {
    if c.transport == UnixTransport then "http://unix"
    else if c.transport == TcpTransport then "http://" + c.addr
    else ""
  }

  /** A given socket path makes the TCP address irrelevant. */
  lemma UnixSocketWins(unixAddr: string, tcpAddr: string)
    requires unixAddr != ""
    ensures NewAPIClient(unixAddr, tcpAddr) == NewAPIClient(unixAddr, "")
    ensures NewAPIClient(unixAddr, tcpAddr).client == APIClient(unixAddr, UnixTransport)
  {
  }

  /** Every client NewAPIClient builds has a non-empty base URL, fixed by the chosen transport. */
  lemma ConnectedClientUrl(unixAddr: string, tcpAddr: string)
    requires NewAPIClient(unixAddr, tcpAddr).Connected?
    ensures HttpServerUrl(NewAPIClient(unixAddr, tcpAddr).client)
            == if unixAddr != "" then "http://unix" else "http://" + tcpAddr
    ensures HttpServerUrl(NewAPIClient(unixAddr, tcpAddr).client) != ""
  {
  }

  // ---------------------------------------------------------------------------
  // Status-code dispatch

  /** parseErrorMessage: the engine's `message` field as an error, or the decode error. */
  function ParseErrorMessage(body: Body): (e: Error)
    ensures e.EngineError? || e.DecodeError?
    ensures e.EngineError? <==> body.message.Parsed?
    ensures body.message.Parsed? ==> ErrorText(e) == body.message.value
    ensures body.message.Malformed? ==> ErrorText(e) == body.message.reason
  {
    match body.message
    case Parsed(m) => EngineError(m)
    case Malformed(reason) => DecodeError(reason)
  }

  /** Shared shape of the start and stop wrappers: 204 No Content is success. */
  function ExpectNoContent(reply: Reply): (err: Option<Error>)
  {
    match reply
    case TransportErr(reason) => Some(TransportError(reason))
    case Response(status, body) =>
      if status == 204 then None else Some(ParseErrorMessage(body))
  }

  function StartContainer(reply: Reply): (err: Option<Error>)
    ensures err.None? <==> reply.Response? && reply.status == 204
    ensures reply.TransportErr? ==> err == Some(TransportError(reply.reason))
    ensures reply.Response? && reply.status != 204 ==> err == Some(ParseErrorMessage(reply.body))
  {
    ExpectNoContent(reply)
  }

  function StopContainer(reply: Reply): (err: Option<Error>)
    ensures err.None? <==> reply.Response? && reply.status == 204
    ensures reply.TransportErr? ==> err == Some(TransportError(reply.reason))
    ensures reply.Response? && reply.status != 204 ==> err == Some(ParseErrorMessage(reply.body))
  {
    ExpectNoContent(reply)
  }

  /** Unlike stop, a request that fails outright is reported as success. */
  function RemoveContainer(reply: Reply): (err: Option<Error>)
    ensures err.None? <==> reply.TransportErr? || reply.status == 204
    ensures reply.Response? && reply.status != 204 ==> err == Some(ParseErrorMessage(reply.body))
  {
    match reply
    case TransportErr(_) => None
    case Response(status, body) =>
      if status == 204 then None else Some(ParseErrorMessage(body))
  }

  /** Remove and stop agree on every HTTP response and differ only where the request itself failed. */
  lemma RemoveSwallowsTransportErrors(reply: Reply)
    ensures reply.Response? ==> RemoveContainer(reply) == StopContainer(reply)
    ensures reply.TransportErr? ==> RemoveContainer(reply).None? && StopContainer(reply).Some?
  {
  }

  /** A failed start carries the engine's message text when the error body decodes. */
  lemma StartErrorCarriesEngineMessage(reply: Reply)
    requires reply.Response? && reply.status != 204 && reply.body.message.Parsed?
    ensures StartContainer(reply).Some?
    ensures ErrorText(StartContainer(reply).value) == reply.body.message.value
  {
  }

  /** `GET /containers/{id}/json`: whether the container is running; `false` beside every error. */
  function CheckIfContainerIsRunning(reply: Reply): (a: Answer<bool>)
    ensures a.err.Some? ==> !a.value
    ensures a.err.None? <==> reply.Response? && reply.status == 200 && reply.body.state.Parsed?
    ensures a.err.None? ==> a.value == reply.body.state.value
    ensures reply.TransportErr? ==> a.err == Some(TransportError(reply.reason))
    ensures reply.Response? && reply.status != 200 ==> a.err == Some(ParseErrorMessage(reply.body))
    ensures reply.Response? && reply.status == 200 && reply.body.state.Malformed? ==>
              a.err == Some(DecodeError(reply.body.state.reason))
  {
    match reply
    case TransportErr(reason) => Answer(false, Some(TransportError(reason)))
    case Response(status, body) =>
      if status == 200 then
        match body.state
        case Parsed(running) => Answer(running, None)
        case Malformed(reason) => Answer(false, Some(DecodeError(reason)))
      else Answer(false, Some(ParseErrorMessage(body)))
  }

  /** `POST /containers/{id}/exec`: the exec Id on 201 Created, otherwise `""` and an error. */
  function CreateExec(reply: Reply): (a: Answer<string>)
    ensures a.err.Some? ==> a.value == ""
    ensures a.err.None? <==> reply.Response? && reply.status == 201 && reply.body.id.Parsed?
    ensures a.err.None? ==> a.value == reply.body.id.value
    ensures reply.Response? && reply.status != 201 ==> a.err == Some(ParseErrorMessage(reply.body))
    ensures reply.TransportErr? ==> a.err == Some(TransportError(reply.reason))
    ensures reply.Response? && reply.status == 201 && reply.body.id.Malformed? ==>
              a.err == Some(DecodeError(reply.body.id.reason))
  {
    match reply
    case TransportErr(reason) => Answer("", Some(TransportError(reason)))
    case Response(status, body) =>
      if status == 201 then
        match body.id
        case Parsed(id) => Answer(id, None)
        case Malformed(reason) => Answer("", Some(DecodeError(reason)))
      else Answer("", Some(ParseErrorMessage(body)))
  }

  /**
   * `POST /exec/{id}/start`: the whole body as text on 200 OK, otherwise `""`
   * and an error. A failed read of the body comes back as a `DecodeError`,
   * which prints the reader's own error text.
   */
  function StartExec(reply: Reply): (a: Answer<string>)
    ensures a.err.Some? ==> a.value == ""
    ensures a.err.None? <==> reply.Response? && reply.status == 200 && reply.body.raw.Parsed?
    ensures a.err.None? ==> a.value == reply.body.raw.value
    ensures reply.Response? && reply.status != 200 ==> a.err == Some(ParseErrorMessage(reply.body))
    ensures reply.TransportErr? ==> a.err == Some(TransportError(reply.reason))
    ensures reply.Response? && reply.status == 200 && reply.body.raw.Malformed? ==>
              a.err == Some(DecodeError(reply.body.raw.reason))
  {
    match reply
    case TransportErr(reason) => Answer("", Some(TransportError(reason)))
    case Response(status, body) =>
      if status == 200 then
        match body.raw
        case Parsed(text) => Answer(text, None)
        case Malformed(reason) => Answer("", Some(DecodeError(reason)))
      else Answer("", Some(ParseErrorMessage(body)))
  }

  /** `GET /images/json` through Get: the image list on 200 OK, otherwise no images and an error. */
  function FindImage(reply: Reply): (a: Answer<seq<DockerImage>>)
    ensures a.err.Some? ==> a.value == []
    ensures a.err.None? <==> reply.Response? && reply.status == 200 && reply.body.images.Parsed?
    ensures a.err.None? ==> a.value == reply.body.images.value
    ensures reply.Response? && reply.status != 200 ==> a.err == Some(StatusError(reply.status))
    ensures reply.TransportErr? ==> a.err == Some(TransportError(reply.reason))
    ensures reply.Response? && reply.status == 200 && reply.body.images.Malformed? ==>
              a.err == Some(DecodeError(reply.body.images.reason))
  {
    match reply
    case TransportErr(reason) => Answer([], Some(TransportError(reason)))
    case Response(status, body) =>
      if status != 200 then Answer([], Some(StatusError(status)))
      else
        match body.images
        case Parsed(images) => Answer(images, None)
        case Malformed(reason) => Answer([], Some(DecodeError(reason)))
  }

  // ---------------------------------------------------------------------------
  // Pulling an image: the digest loop

  predicate IsDigestStatus(m: PullMessage)
  {
    m.Status? && HasPrefix(m.status, DigestPrefix)
  }

  /** How many stream entries are decoded before the first EOF or decode error. */
  function Consumed(ms: seq<PullMessage>): (k: nat)
    ensures k <= |ms|
    ensures forall j :: 0 <= j < k ==> ms[j].Status?
    ensures k < |ms| ==> !ms[k].Status?
  {
    if ms == [] || !ms[0].Status? then 0 else 1 + Consumed(ms[1..])
  }

  /** Specification of the digest: the text after the prefix of the last status that has it, or `""`. */
  function LastDigest(ms: seq<PullMessage>): string
  {
    if ms == [] then ""
    else if IsDigestStatus(ms[|ms| - 1]) then TrimPrefix(ms[|ms| - 1].status, DigestPrefix)
    else LastDigest(ms[..|ms| - 1])
  }

  /** The status lines PullImage prints, one per decoded status. */
  function StatusLines(ms: seq<PullMessage>): (lines: seq<string>)
    requires forall j :: 0 <= j < |ms| ==> ms[j].Status?
    ensures |lines| == |ms|
    ensures forall j :: 0 <= j < |ms| ==> lines[j] == Line(ms[j].status)
  {
    if ms == [] then [] else StatusLines(ms[..|ms| - 1]) + [Line(ms[|ms| - 1].status)]
  }

  /** The digest and error PullImage returns for a reply. */
  function PullAnswer(reply: Reply): Answer<string>
  {
    match reply
    case TransportErr(reason) => Answer("", Some(TransportError(reason)))
    case Response(_, body) =>
      var k := Consumed(body.stream);
      var digest := LastDigest(body.stream[..k]);
      if k < |body.stream| && body.stream[k].DecodeErr? then
        Answer(digest, Some(DecodeError(body.stream[k].reason)))
      else Answer(digest, None)
  }

  /** What PullImage prints for a reply. */
  function PullPrinted(reply: Reply): seq<string>
  {
    match reply
    case TransportErr(_) => []
    case Response(_, body) => StatusLines(body.stream[..Consumed(body.stream)])
  }

  /**
   * `POST /images/create`: decodes the progress stream until EOF or a decode
   * error, printing each status; every status with the digest prefix replaces
   * the digest. The end of the given stream counts as EOF.
   */
  method PullImage(reply: Reply) returns (r: Answer<string>, printed: seq<string>)
    ensures r == PullAnswer(reply)
    ensures printed == PullPrinted(reply)
  {
    if reply.TransportErr? {
      return Answer("", Some(TransportError(reply.reason))), [];
    }
    var stream := reply.body.stream;
    var digest := "";
    printed := [];
    var i := 0;
    while i < |stream| && stream[i].Status?
      invariant i <= |stream|
      invariant forall j :: 0 <= j < i ==> stream[j].Status?
      invariant digest == LastDigest(stream[..i])
      invariant printed == StatusLines(stream[..i])
    {
      var status := stream[i].status;
      printed := printed + [Line(status)];
      if HasPrefix(status, DigestPrefix) {
        digest := TrimPrefix(status, DigestPrefix);
      }
      assert stream[..i + 1] == stream[..i] + [stream[i]];
      assert stream[..i + 1][..i] == stream[..i];
      i := i + 1;
    }
    assert i == Consumed(stream);
    if i < |stream| && stream[i].DecodeErr? {
      return Answer(digest, Some(DecodeError(stream[i].reason))), printed;
    }
    r := Answer(digest, None);
  }

  /** Last match wins: LastDigest is the suffix of the last digest status, and `""` when there is none. */
  lemma {:induction false} LastDigestIsLastMatch(ms: seq<PullMessage>, i: nat)
    requires i < |ms| && IsDigestStatus(ms[i])
    requires forall j :: i < j < |ms| ==> !IsDigestStatus(ms[j])
    ensures LastDigest(ms) == TrimPrefix(ms[i].status, DigestPrefix)
  {
    if i < |ms| - 1 {
      LastDigestIsLastMatch(ms[..|ms| - 1], i);
    }
  }

  lemma {:induction false} LastDigestWithoutMatch(ms: seq<PullMessage>)
    requires forall j :: 0 <= j < |ms| ==> !IsDigestStatus(ms[j])
    ensures LastDigest(ms) == ""
  {
    if ms != [] {
      LastDigestWithoutMatch(ms[..|ms| - 1]);
    }
  }

  /** A stream that reaches EOF cleanly yields the last announced digest and no error. */
  lemma CleanPullDigest(reply: Reply, statuses: seq<PullMessage>, rest: seq<PullMessage>)
    requires forall j :: 0 <= j < |statuses| ==> statuses[j].Status?
    requires reply.Response? && reply.body.stream == statuses + [EOF] + rest
    ensures PullAnswer(reply) == Answer(LastDigest(statuses), None)
    ensures PullPrinted(reply) == StatusLines(statuses)
  {
    ConsumedStops(statuses, EOF, rest);
  }

  /** A decode error stops the stream: the digest so far comes back with that error, and later entries are never read. */
  lemma PullStopsAtDecodeError(reply: Reply, statuses: seq<PullMessage>, reason: string, rest: seq<PullMessage>)
    requires forall j :: 0 <= j < |statuses| ==> statuses[j].Status?
    requires reply.Response? && reply.body.stream == statuses + [DecodeErr(reason)] + rest
    ensures PullAnswer(reply) == Answer(LastDigest(statuses), Some(DecodeError(reason)))
    ensures PullPrinted(reply) == StatusLines(statuses)
  {
    ConsumedStops(statuses, DecodeErr(reason), rest);
  }

  lemma {:induction false} ConsumedStops(statuses: seq<PullMessage>, stop: PullMessage, rest: seq<PullMessage>)
    requires forall j :: 0 <= j < |statuses| ==> statuses[j].Status?
    requires !stop.Status?
    ensures Consumed(statuses + [stop] + rest) == |statuses|
    ensures (statuses + [stop] + rest)[..|statuses|] == statuses
  {
    var ms := statuses + [stop] + rest;
    if statuses != [] {
      assert ms[1..] == statuses[1..] + [stop] + rest;
      ConsumedStops(statuses[1..], stop, rest);
    }
  }

  // ---------------------------------------------------------------------------
  // Creating a container: the warnings loop

  /** What CreateContainer prints: one line per warning, in order. */
  function WarningLines(warnings: seq<string>): (lines: seq<string>)
    ensures |lines| == |warnings|
    ensures forall j :: 0 <= j < |warnings| ==> lines[j] == Line(WarningPrefix + warnings[j])
  {
    if warnings == [] then []
    else WarningLines(warnings[..|warnings| - 1]) + [Line(WarningPrefix + warnings[|warnings| - 1])]
  }

  /** The container Id and error CreateContainer returns; the status code is not consulted. */
  function CreatedAnswer(reply: Reply): (a: Answer<string>)
    ensures a.err.None? <==> reply.Response? && reply.body.created.Parsed?
    ensures a.err.None? ==> a.value == reply.body.created.value.id
    ensures a.err.Some? ==> a.value == ""
    ensures reply.TransportErr? ==> a.err == Some(TransportError(reply.reason))
    ensures reply.Response? && reply.body.created.Malformed? ==>
              a.err == Some(DecodeError(reply.body.created.reason))
  {
    match reply
    case TransportErr(reason) => Answer("", Some(TransportError(reason)))
    case Response(_, body) =>
      match body.created
      case Parsed(c) => Answer(c.id, None)
      case Malformed(reason) => Answer("", Some(DecodeError(reason)))
  }

  /** `POST /containers/create`: the new container's Id; each warning is printed and does not fail creation. */
  method CreateContainer(reply: Reply) returns (r: Answer<string>, printed: seq<string>)
    ensures r == CreatedAnswer(reply)
    ensures printed == CreatedPrinted(reply)
  {
    printed := [];
    if reply.TransportErr? {
      return Answer("", Some(TransportError(reply.reason))), printed;
    }
    if reply.body.created.Malformed? {
      return Answer("", Some(DecodeError(reply.body.created.reason))), printed;
    }
    var created := reply.body.created.value;
    var i := 0;
    while i < |created.warnings|
      invariant i <= |created.warnings|
      invariant |printed| == i
      invariant forall j :: 0 <= j < i ==> printed[j] == Line(WarningPrefix + created.warnings[j])
    {
      printed := printed + [Line(WarningPrefix + created.warnings[i])];
      i := i + 1;
    }
    assert printed == WarningLines(created.warnings);
    r := Answer(created.id, None);
  }

  /** What CreateContainer prints for a reply. */
  function CreatedPrinted(reply: Reply): seq<string>
  {
    if reply.Response? && reply.body.created.Parsed? then WarningLines(reply.body.created.value.warnings)
    else []
  }
}
