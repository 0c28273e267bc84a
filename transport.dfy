/** The HTTP transport the client posts through, replaced by a scripted
    server: it answers the n-th request with the n-th scripted reply and
    keeps a log of every request it was sent. */
module Transport {
  import opened Wrappers
  import opened JsonValue

  /** An error raised by the HTTP client while sending or while reading
      the body (a `reqwest::Error`); only its text is kept. */
  datatype HttpError = HttpError(message: string)

  /** The transport error a request meets once the script has run out. */
  const EXHAUSTED: HttpError := HttpError("connection closed: no scripted reply left")

  /** An HTTP status code as reqwest represents it. */
  type StatusCode = s: int | 100 <= s <= 999 witness 200

  /** One POST as the client sends it: the endpoint, the `x-api-key`
      header and the JSON body. */
  datatype Request = PostJson(url: string, apiKey: string, body: Json)

  /** The outcome of one POST: a transport failure, or a status with the
      body text and what JSON parsing made of it (`None`: not JSON). The
      status is never inspected by the client, only carried into errors. */
  datatype Response =
    | Failed(error: HttpError)
    | Received(status: StatusCode, body: string, json: Option<Json>)

  /** The answer to the request numbered `k` (from 0) of a script. */
  function ReplyAt(replies: seq<Response>, k: nat): (r: Response)
    ensures k < |replies| ==> r == replies[k]
    ensures k >= |replies| ==> r == Failed(EXHAUSTED)
  {
    if k < |replies| then replies[k] else Failed(EXHAUSTED)
  }

  class Server {
    /** The replies, in the order the requests will meet them. */
    const replies: seq<Response>
    /** Every request received so far, oldest first. */
    var log: seq<Request>

    constructor (replies: seq<Response>)
      ensures this.replies == replies && log == []
    {
      this.replies := replies;
      log := [];
    }

    /** Sends one request and returns its reply. */
    method Post(req: Request) returns (resp: Response)
      modifies this
      ensures log == old(log) + [req]
      ensures resp == ReplyAt(replies, |old(log)|)
    {
      resp := ReplyAt(replies, |log|);
      log := log + [req];
    }
  }
}
