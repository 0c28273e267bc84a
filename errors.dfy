/** The error taxonomy of src/client/error.rs, the `From` conversions the
    `?` operator applies, and the texts the errors display as. */
module Errors {
  import opened Text
  import opened Transport

  datatype RequestError =
    | Http(error: HttpError)
    | InvalidJson
    | Api(message: string)
    | ParseError(status: StatusCode, body: string)
  {
    /** The `Display` text of the error. */
    function Display(): (r: string)
      ensures Http? ==> r == "HTTP request failed: " + error.message
      ensures InvalidJson? ==> r == "failed to parse response: "
      ensures Api? ==> r == "API response is an error: " + message
      ensures ParseError? ==>
        r == "failed to parse response as expected type, got status " + StatusText(status) + ": " + body
    {
      match this
      case Http(e) => "HTTP request failed: " + e.message
      case InvalidJson => "failed to parse response: "
      case Api(m) => "API response is an error: " + m
      case ParseError(s, b) =>
        "failed to parse response as expected type, got status " + StatusText(s) + ": " + b
    }
  }

  /** The three decimal digits of a status code. */
  function StatusText(s: StatusCode): (r: string)
    ensures |r| == 3 && forall i :: 0 <= i < 3 ==> '0' <= r[i] <= '9'
    ensures (r[0] as int - '0' as int) * 100 + (r[1] as int - '0' as int) * 10 + (r[2] as int - '0' as int) == s
  {
    [Digit(s / 100), Digit(s / 10 % 10), Digit(s % 10)]
  }

  /** The decimal digit character of `d`. */
  function Digit(d: int): (c: char)
    requires 0 <= d <= 9
    ensures '0' <= c <= '9' && c as int - '0' as int == d
  {
    ('0' as int + d) as char
  }

  datatype LoginError = Request(error: RequestError)
  {
    /** `#[error(transparent)]`: shown exactly as the inner error. */
    function Display(): (r: string)
      ensures r == error.Display()
    {
      error.Display()
    }
  }

  datatype VerifyError = Request(error: RequestError)
  {
    /** `#[error(transparent)]`: shown exactly as the inner error. */
    function Display(): (r: string)
      ensures r == error.Display()
    {
      error.Display()
    }
  }

  datatype FetchError =
    | InvalidUrl(reason: string)
    | UnknownResource(url: string)
    | Request(error: RequestError)
  {
    function Display(): (r: string)
      ensures InvalidUrl? ==> r == "invalid URL: " + reason
      ensures UnknownResource? ==> r == "unknown resource: " + url
      ensures Request? ==> r == error.Display()
    {
      match this
      case InvalidUrl(p) => "invalid URL: " + p
      case UnknownResource(u) => "unknown resource: " + u
      case Request(e) => e.Display()
    }
  }

  /** `From<reqwest::Error> for LoginError`. */
  function LoginErrorFromHttp(e: HttpError): (r: LoginError)
    ensures r.error == Http(e)
  {
    LoginError.Request(Http(e))
  }

  /** `From<reqwest::Error> for VerifyError`. */
  function VerifyErrorFromHttp(e: HttpError): (r: VerifyError)
    ensures r.error == Http(e)
  {
    VerifyError.Request(Http(e))
  }

  /** `From<reqwest::Error> for FetchError`. */
  function FetchErrorFromHttp(e: HttpError): (r: FetchError)
    ensures r.Request? && r.error == Http(e)
  {
    FetchError.Request(Http(e))
  }

  /** A transport error reads the same whichever operation it aborted. */
  lemma TransportErrorReadsAlike(e: HttpError)
    ensures LoginErrorFromHttp(e).Display() == "HTTP request failed: " + e.message
    ensures VerifyErrorFromHttp(e).Display() == LoginErrorFromHttp(e).Display()
    ensures FetchErrorFromHttp(e).Display() == LoginErrorFromHttp(e).Display()
  {
  }
}
