/**
 * The Docker Engine API as the client sees it once an HTTP exchange is over.
 *
 * The client never inspects raw bytes: every endpoint wrapper either fails
 * in the transport, or reads a status code and decodes the body into one
 * small struct. A reply is therefore modelled as the status code plus the
 * outcome of each decoding the client can apply to that body. JSON decoding
 * itself is not modelled; its outcome is an input.
 */
module Replies {

  datatype Option<+T> = None | Some(value: T)

  /** Outcome of decoding a body into one of the client's structs. */
  datatype Decoded<+T> = Parsed(value: T) | Malformed(reason: string)

  /** One entry of the image list returned by `GET /images/json`. */
  datatype DockerImage = DockerImage(identifier: string, repoDigests: seq<string>, repoTags: seq<string>)

  /** The body of `POST /containers/create`: the new container's Id and the engine's warnings. */
  datatype Created = Created(id: string, warnings: seq<string>)

  /** One step of decoding the pull progress stream of `POST /images/create`. */
  datatype PullMessage = Status(status: string) | EOF | DecodeErr(reason: string)

  /**
   * A response body, given as what each reader of the client makes of it:
   * `message` as `{"message": ...}`, `state` as `{"State": {"Running": ...}}`,
   * `id` as `{"Id": ...}`, `created` as `{"Id": ..., "Warnings": [...]}`,
   * `images` as a list of images, `stream` as the steps of decoding the pull
   * stream, and `raw` as the whole body read as text (`Malformed` when reading
   * the body fails; nothing is decoded there). A stream step that
   * decodes gives the struct's status after that document; the struct is
   * reused, so a document without `status` repeats the previous one.
   */
  datatype Body = Body(
    message: Decoded<string>,
    state: Decoded<bool>,
    id: Decoded<string>,
    created: Decoded<Created>,
    images: Decoded<seq<DockerImage>>,
    stream: seq<PullMessage>,
    raw: Decoded<string>)

  /** A reply to one request: an HTTP response, or a failure of the request itself. */
  datatype Reply = Response(status: nat, body: Body) | TransportErr(reason: string)

  /** The errors the client hands back, by origin. */
  datatype Error =
    | ConfigError(text: string)     // raised by NewAPIClient
    | TransportError(text: string)  // the HTTP request failed
    | DecodeError(text: string)     // a body did not decode
    | EngineError(message: string)  // the engine's own `message` field
    | StatusError(code: nat)        // Get saw a status other than 200

  /** Go's `(value, error)` result pair: the value is returned even beside an error. */
  datatype Answer<+T> = Answer(value: T, err: Option<Error>)

  /** What `fmt.Println(err)` writes before the newline. */
  function ErrorText(e: Error): string
  {
    match e
    case ConfigError(t) => t
    case TransportError(t) => t
    case DecodeError(t) => t
    case EngineError(m) => m
    case StatusError(code) => "Unexpected HTTP respose status: " + Decimal(code)
  }

  /** Decimal rendering of a natural number, as `%d` prints it. */
  function Decimal(n: nat): (s: string)
    ensures |s| > 0
  {
    if n < 10 then ["0123456789"[n]] else Decimal(n / 10) + ["0123456789"[n % 10]]
  }

  /** A line as `fmt.Println` writes it. */
  function Line(s: string): (l: string)
    ensures |l| == |s| + 1 && l[|s|] == '\n' && l[..|s|] == s
  {
    s + "\n"
  }
}
