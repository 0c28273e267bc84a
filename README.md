# LinkUp client protocol engine, in Dafny

This project models the request/response engine of the LinkUp client
(`src/client.rs` and `src/client/`), with proofs. The engine covers:

- the two handshake calls, `login` and `verify`;
- `Client::fetch`, which checks the host of a LinkedIn URL and routes it by
  path prefix to one of five handlers;
- the two single-request handlers, profile and company;
- the two page-window loops, conversation messages and connections, which
  request pages `s ..= s + 9` for `s = 1, 11, 21, …`;
- the two cursor loops, the inbox listing and the conversation lookup;
- the wire envelopes these calls decode, and the error taxonomy with its
  `From` conversions.

The modules:

- **Wrappers**: `Option` and `Result`.
- **JsonValue**: `Json`, the parsed `serde_json::Value`, with the accessors
  the client uses (`value[key]`, `as_array`, `as_str`, `as_u64`).
- **Text**: `starts_with`, `ends_with`, `contains` and `split('/')`.
- **Api**: the envelopes and serde's decoding rules for them, stated as
  total functions from `Json` to `Option`. The matching encoders come with
  proved round trips.
- **Errors**: `RequestError`, `LoginError`, `VerifyError` and `FetchError`,
  their display texts and the transport-error conversions.
- **Types**: `LoginResult`.
- **Transport**: the HTTP client, replaced by a `Server` class. The server
  holds a finite script of replies and a log of the requests it received.
  The n-th request gets the n-th reply. Once the script runs out, every
  request gets a transport error.
- **Protocol**: the specification side, in pure functions.
  - The request each endpoint sends.
  - How each reply is read.
  - The router.
  - For each paginated operation, a "walk": the result and the exact
    requests the operation sends when it starts at request `k` of the
    script.
  - The lemmas that state what the walks do.
- **Client**: the operations as imperative code.
  - `Login` and `Verify`.
  - A `Client` class with `Fetch`, the two single-request handlers and the
    four loops. The loops are `while` loops that grow their result in
    place.
  - Each method is proved to return exactly the result the walk gives and
    to leave the server's log extended by exactly the walk's requests.

A re-login and retry on an HTTP 403, and a quiet stop on every malformed
page, are not in this code; the model follows the code:

- There is no re-login and retry on an HTTP 403. The command-line front
  end maps every fetch error to one exit code (`src/fetcher/main.rs`,
  which is not part of this model). The client never looks at the HTTP
  status; it only copies it into `ParseError`.
- Not every malformed page ends a loop quietly with the items gathered so
  far:
  - A reply that is not an envelope aborts the call with `ParseError`.
  - An inbox page whose `data` does not decode aborts it with
    `InvalidJson`.
  - A page window stops quietly, keeping what was gathered, when its
    `messages` or `connections` member is missing or is not an array
    (src/client.rs:236, 301).
  - A messages window whose `pagination.messages_per_page` is missing or
    is not a `u64` also ends the loop quietly, after its messages are
    added (src/client.rs:242-246).

## Model

| member | source | states |
|---|---|---|
| Api.OptionalStringField | src/client/api.rs:72-77 | An `Option<String>` member decodes to `None` when it is missing or `null`, to its text when it is a string, and fails otherwise |
| Api.DecodeLoginPayload | src/client/api.rs:20-42 | The untagged login payload decodes exactly when `message` is a string and a string `login_token` or `email` is present. It is `WithToken` exactly when the token is present, so `WithToken` is tried first. The decoded fields equal the body's members |
| Api.DecodeLogin | src/client/api.rs:8-18 | A body whose `status` tag is neither `"success"` nor `"error"` does not decode. `Success` holds exactly the flattened payload. `Error` holds exactly a string `message`, verbatim |
| Api.DecodeVerify | src/client/api.rs:49-59 | A success needs a string `login_token`; its `message` is optional, and a missing or `null` one still decodes. An error holds its `message` verbatim. An unknown tag fails |
| Api.DecodeFetch | src/client/api.rs:61-70 | A success holds the `data` member, of any JSON type, untouched, and decodes exactly when that member exists. An error needs a string `message`. An unknown tag fails |
| Api.DecodeInboxData | src/client/api.rs:72-77 | `InboxData` decodes exactly when `conversations` is an array, `total_results` is an integer within u32, and `next_cursor` is a string, `null` or absent. The cursor is `None` exactly when the member is missing or `null` |
| Api.EncodeLogin | src/client/api.rs:8-42 | Decoding the serialised form of any `LoginResponse` gives it back |
| Api.EncodeVerify | src/client/api.rs:49-59 | Decoding the serialised form of any `VerifyResponse` gives it back, an absent message included |
| Api.EncodeFetch | src/client/api.rs:61-70 | Decoding the serialised form of any `FetchResponse` gives it back, whatever JSON `data` holds |
| Api.EncodeInboxData | src/client/api.rs:72-77 | Decoding the serialised form of any `InboxData` gives it back |
| Api.TokenWinsOverEmail | src/client/api.rs:20-42 | A payload that carries both a token and an email decodes as `WithToken` |
| Api.UnknownMembersIgnored | src/client/api.rs:8-77 | Adding a member that no envelope declares changes no decoder's result |
| Errors.RequestError.Display | src/client/error.rs:5-18 | Each error displays in its fixed format: `HTTP request failed: ` then the transport text, `failed to parse response: ` for bad JSON, `API response is an error: ` then the upstream message verbatim, and `failed to parse response as expected type, got status ` then the status, `: ` and the body |
| Errors.StatusText | src/client/error.rs:13-17 | A status code displays as exactly three decimal digits, which read back as the code |
| Errors.LoginError.Display | src/client/error.rs:20-24 | A login error displays exactly as its inner `RequestError` |
| Errors.VerifyError.Display | src/client/error.rs:32-36 | A verify error displays exactly as its inner `RequestError` |
| Errors.FetchError.Display | src/client/error.rs:44-52 | `InvalidUrl` displays as `invalid URL: ` then the parse error, and `UnknownResource` as `unknown resource: ` then the URL. `Request` displays exactly as its inner error |
| Errors.LoginErrorFromHttp | src/client/error.rs:26-30 | A transport error becomes `LoginError::Request(Http(e))` |
| Errors.VerifyErrorFromHttp | src/client/error.rs:38-42 | A transport error becomes `VerifyError::Request(Http(e))` |
| Errors.FetchErrorFromHttp | src/client/error.rs:54-58 | A transport error becomes `FetchError::Request(Http(e))` |
| Errors.TransportErrorReadsAlike | src/client/error.rs:20-58 | A transport error displays the same whether it aborted a login, a verify or a fetch |
| Text.Contains | src/client.rs:474 | `contains` holds exactly when the fragment occurs at some position |
| Text.UpToSlash | src/client.rs:185-191 | The text before the first `/`: a prefix of the input, free of `/`, and followed by `/` when shorter than the input |
| Text.JoinSplit | src/client.rs:185-191 | Splitting a path at `/` loses nothing: joining the pieces again gives the path back |
| Transport.Server.Post | src/client.rs:35-44 | Posting logs the request after the earlier ones and returns the scripted reply for its position, or the transport error once the script has run out |
| Protocol.SingleRequestShapes | src/client.rs:146-153 | A company request, and likewise a profile request (src/client.rs:397-404), posts the URL, the token and `country: "US"` under `V1_API_URL` with the API key |
| Protocol.WindowRequestShape | src/client.rs:204-212 | A window request asks for `start_page = s` and `end_page = s + 9` with the token and `country: "US"` under `V1_API_URL`. A messages window also names the conversation |
| Protocol.InboxRequestShape | src/client.rs:339-350 | An inbox request asks for `total_results: 25` with the token and `country: "US"` under `V1_API_URL`. It carries `next_cursor` exactly when it has a cursor |
| Protocol.InterpretLogin | src/client.rs:46-60 | `WithToken` gives `GotToken` with the body's token, and `NeedCode` gives `NeedCode` with its message. An error envelope gives `Api(message)` verbatim. A body that does not parse or decode gives `ParseError` with the reply's status and text. A transport failure gives, and alone gives, `Http`. It never gives `InvalidJson` |
| Protocol.InterpretVerify | src/client.rs:91-98 | A success gives its `login_token`. An error envelope gives `Api(message)` verbatim. Anything undecodable gives `ParseError` with the status and text, and a transport failure gives `Http` |
| Protocol.FetchReplyMeaning | src/client.rs:169-176 | A fetch reply gives the `data` of a success envelope untouched, `Api(message)` for an error envelope, `ParseError` with status and text exactly when the body is not an envelope, and `Http` exactly for a transport failure. It never gives `InvalidJson` |
| Protocol.InboxPageMeaning | src/client.rs:366-372 | An inbox reply is read exactly when it is a success envelope whose `data` decodes as `InboxData`. Data that does not decode gives `InvalidJson`, and an envelope error is passed on |
| Protocol.MessagesPageStep | src/client.rs:235-249 | A messages page without a `messages` array adds nothing and stops. Otherwise it adds all its messages, then asks for more exactly when `messages_per_page` is present and at most the number of messages |
| Protocol.ConnectionsPageStep | src/client.rs:300-318 | A connections page asks for more, adding its connections, exactly when `connections` is a non-empty array and `total_results` is not 0. Otherwise it adds nothing and stops |
| Protocol.WindowWalkRequests | src/client.rs:198-249 | The i-th request of a window walk is the window starting at page `s + 10i`. The same loop appears at src/client.rs:266-318. The walk sends at most one request more than the replies left |
| Protocol.WindowWalkStops | src/client.rs:234-249 | Every page of a window walk but the last asked for more, and the last did not |
| Protocol.WindowWalkResult | src/client.rs:234-261 | A window walk returns the concatenation of every page's items in request order. If the last reply is an error, that error is the result and the gathered items are dropped |
| Protocol.WindowWalkDetermined | src/client.rs:203-259 | When the n pages from request k on ask for more and page k+n does not, the walk sends exactly the windows starting at pages s, s+10, …, s+10n. It returns those pages' items, or the last page's error |
| Protocol.EndlessWindowWalk | src/client.rs:242-249 | A walk whose every remaining reply asks for more sends one request per remaining reply plus one. It fails with the transport error of the exhausted script |
| Protocol.ZeroPageSizeAsksForMore | src/client.rs:242-247 | A messages page that declares a page size of 0 always asks for more, after adding its messages |
| Protocol.InboxWalkRequests | src/client.rs:338-381 | The first inbox request carries the starting cursor, and each later one the cursor of the page before. The walk sends at most one request more than the replies left |
| Protocol.InboxWalkPageSize | src/client.rs:339-348 | Every inbox request asks for 25 conversations with the client's token. When the walk starts without a cursor, the first request carries no `next_cursor` |
| Protocol.InboxWalkStops | src/client.rs:374-381 | The inbox walk stops exactly at the first page without a cursor, or at the first reply that is not an inbox page |
| Protocol.InboxWalkResult | src/client.rs:366-393 | The inbox walk returns every page's conversations in order. An error in the last reply, envelope or `InvalidJson`, is the result instead, and what was gathered is dropped |
| Protocol.InboxWalkDetermined | src/client.rs:338-391 | When the n pages from request k on carry a cursor and page k+n does not, the inbox walk sends exactly n+1 requests, each after the first with the previous page's cursor. It returns those pages' conversations, or the last page's error |
| Protocol.FirstMatchIsFirst | src/client.rs:470-477 | The page scan finds nothing exactly when no record has a string id containing the fragment. Otherwise it returns the id of a matching record before which no record matches |
| Protocol.EmptyFragmentMatchesEveryId | src/client.rs:470-477 | The id taken from `/messaging/thread/` is empty, and the empty fragment matches exactly the records that have a string `conversation_id` |
| Protocol.FindSendsInboxPrefix | src/client.rs:431-484 | The lookup sends a prefix of the inbox walk's requests. It moves past a page only when that page holds no match and names a next page, so after a match it sends nothing more |
| Protocol.FindErrorIsInboxError | src/client.rs:462-492 | A failed lookup fails with the same error, after the same requests, as the inbox listing from the same point |
| Protocol.FindNothingMeansNoMatch | src/client.rs:479-484 | "Not found" means the inbox listing reads the same pages with the same requests and none of its conversations matches |
| Protocol.FindReturnsFirstMatch | src/client.rs:470-477 | A found id is the first match, in page-then-record order, among the conversations of the pages read |
| Protocol.FindAgreesWithInbox | src/client.rs:431-484 | A found id is what a search of the whole inbox listing finds first, whenever that listing succeeds |
| Protocol.AnyLinkedinSuffixAccepted | src/client.rs:115-120 | Every host ending in `linkedin.com` passes the host test, `evillinkedin.com` included |
| Protocol.RouteOf | src/client.rs:115-142 | A missing or foreign host routes nowhere. Otherwise each handler is chosen exactly when its prefix matches and no earlier prefix does. `/messaging` catches every `/messaging…` path that is not a thread |
| Protocol.ConversationIdOf | src/client.rs:185-191 | The conversation id is the text between `/messaging/thread/` and the next `/`, so the third path segment |
| Protocol.FetchWalk | src/client.rs:112-143 | An unparsable URL gives `InvalidUrl`, and a foreign host or unrouted path gives `UnknownResource(url)`, both before any request. Profile and company send exactly their one request and return that reply's reading. A conversation thread, the inbox and the connections list each send exactly the requests of their own walk, and return that walk's error or its items wrapped in a JSON array |
| Protocol.ConversationWalk | src/client.rs:180-261 | A conversation fetch first looks its id up in the inbox. A failed lookup is the result, and an id found nowhere gives `UnknownResource(url)`, in both cases after the lookup's requests only. A found id is followed by the message windows of that conversation from page 1 on, whose result is the fetch's |
| Protocol.WindowWalk | src/client.rs:198-259 | A window walk's first request is the window starting at its start page. The same loop appears at src/client.rs:266-328 |
| Protocol.InboxWalk | src/client.rs:334-391 | An inbox walk's first request carries its starting cursor |
| Protocol.FindWalk | src/client.rs:431-494 | A lookup's first request is the inbox page at its starting cursor. What it returns is stated by Protocol.FindReturnsFirstMatch and Protocol.FindErrorIsInboxError |
| Protocol.PageStep | src/client.rs:235-249 | A page window adds items only from its `messages` (or `connections`) array, and then exactly that array's items. The connections case is src/client.rs:300-318 |
| Protocol.InterpretFetch | src/client.rs:169-176 | A fetch reply reads as data only when a reply was received, and every failure is a request error other than `InvalidJson` |
| Text.Split | src/client.rs:185-191 | A path splits into at least one piece, none of which contains `/` |
| Client.Login | src/client.rs:19-61 | `login` posts exactly the login request and returns the reading of its reply |
| Client.Verify | src/client.rs:64-99 | `verify` posts exactly the verify request and returns the reading of its reply |
| Client.Client.constructor | src/client.rs:101-108 | A client holds the transport, the API key and the login token it was built with |
| Client.Client.Fetch | src/client.rs:112-143 | `fetch` returns the result of `FetchWalk` and sends exactly its requests |
| Client.Client.FetchCompany | src/client.rs:146-177 | Sends exactly one company request and returns the reading of its reply |
| Client.Client.FetchProfile | src/client.rs:397-428 | Sends exactly one profile request and returns the reading of its reply |
| Client.Client.FetchConversation | src/client.rs:180-262 | Looks the thread id up, gives `UnknownResource(url)` when nothing matches, and otherwise runs the messages windows. Result and requests are those of `ConversationWalk` |
| Client.Client.FetchConnections | src/client.rs:265-331 | Result and requests are those of the connections window walk from page 1 |
| Client.Client.FetchWindows | src/client.rs:198-261 | The window loop returns exactly the window walk's result and sends exactly its requests |
| Client.Client.ReadWindow | src/client.rs:203-250 | Posts one window request and reads the reply as one step of the walk |
| Client.Client.FetchInbox | src/client.rs:334-394 | The inbox loop returns exactly the inbox walk's result and sends exactly its requests |
| Client.Client.ReadInboxPage | src/client.rs:339-372 | Posts one inbox request with the given cursor and reads the reply as an inbox page |
| Client.Client.FindConversation | src/client.rs:431-495 | The lookup loop returns exactly the lookup walk's result and sends exactly its requests |
| Client.FirstMatchIn | src/client.rs:470-477 | The record loop returns the first string `conversation_id` that contains the fragment, or nothing |

## Left out

- The HTTP transport (`reqwest`), `async`/`await` and timeouts are replaced by the scripted `Server`. A transport failure is one opaque `HttpError` carrying only its text.
- `url::Url` parsing is an input. A URL arrives either as a parse failure with its message or as its serialisation, host and path.
- `serde_json` text parsing is an input. A reply carries its status, its body text, and either the parsed `Json` or nothing. Duplicate object keys and serde's acceptance of a JSON array in place of a struct are not modelled.
- JSON numbers other than integers are kept as opaque text (`Float`). `as_u64` accepts only integers in the u64 range.
- `tracing` logging is not modelled. `SecretString` values are plain strings.
- `src/fetcher/main.rs` is not part of this model: command-line parsing, configuration, keyring storage, the code prompt and printing.
- A 403 re-login-and-retry policy is not modelled, because the code has none.
- Client.Client.FetchWindows: `start_page` is an unbounded integer. In the source it is an `i32`, and `end_page = start_page + 9` overflows at about the 214.7 millionth window (a panic in a debug build, a wrap-around in a release build). A walk reaches that only with about 214.7 million replies that all ask for more, so the overflow is left unmodelled as unreachable in practice.
- Client.Client.FetchInbox: the source loops have no bound of their own. Here every loop ends when the script runs out, with that transport error. Protocol.EndlessWindowWalk states this for a server that always asks for more.
- Protocol.PageStep: compares the number of messages with the full `u64` `messages_per_page`. The source casts it with `per_page as usize` (src/client.rs:244), which truncates on a 32-bit target, so the model assumes a 64-bit `usize`.
- Errors.RequestError.Display: `InvalidJson` does not carry the `serde_json` error, so its text ends with an empty message.
- Errors.StatusText: shows only the three digits. reqwest's `StatusCode` also prints the reason phrase.
- The builder of `Client` (`bon::Builder`, with a default HTTP client) is reduced to a constructor taking all three parts.
