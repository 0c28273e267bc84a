/** What the client of src/client.rs sends and what it makes of the
    replies, stated as functions of the scripted replies: the requests of
    each endpoint, the reading of each envelope, the URL router, and one
    "walk" per paginated operation giving its result and the requests it
    sends when it starts at request number `k` of the script. */
module Protocol {
  import opened Wrappers
  import opened JsonValue
  import opened Text
  import opened Api
  import opened Errors
  import opened Types
  import opened Transport

  /** The fixed `country` member of every request body. */
  const COUNTRY: string := "US"
  /** The fixed `total_results` member of every inbox request. */
  const INBOX_PAGE_SIZE: int := 25
  /** `batch_end_page_offset`: a window spans `start_page ..= start_page + 9`. */
  const WINDOW_OFFSET: int := 9

  // ===== requests =====

  function LoginRequest(apiKey: string, email: string, password: string): Request
  {
    PostJson(V1_API_URL + "/auth/login", apiKey,
      Obj(map["email" := Str(email), "password" := Str(password), "country" := Str(COUNTRY)]))
  }

  function VerifyRequest(apiKey: string, email: string, code: string): Request
  {
    PostJson(V1_API_URL + "/auth/verify", apiKey,
      Obj(map["email" := Str(email), "code" := Str(code), "country" := Str(COUNTRY)]))
  }

  function ProfileRequest(apiKey: string, token: string, url: string): Request
  {
    PostJson(V1_API_URL + "/profile/info", apiKey,
      Obj(map["linkedin_url" := Str(url), "country" := Str(COUNTRY), "login_token" := Str(token)]))
  }

  function CompanyRequest(apiKey: string, token: string, url: string): Request
  {
    PostJson(V1_API_URL + "/companies/info", apiKey,
      Obj(map["company_url" := Str(url), "country" := Str(COUNTRY), "login_token" := Str(token)]))
  }

  /** The two lists fetched by page windows. */
  datatype Listing = Messages(conversationId: string) | Connections

  /** The request for the window that starts at page `start`. */
  function WindowRequest(apiKey: string, token: string, listing: Listing, start: int): Request
  {
    match listing
    case Messages(id) =>
      PostJson(V1_API_URL + "/messages/conversation", apiKey,
        Obj(map["conversation_id" := Str(id), "login_token" := Str(token), "country" := Str(COUNTRY),
                "start_page" := Int(start), "end_page" := Int(start + WINDOW_OFFSET)]))
    case Connections() =>
      PostJson(V1_API_URL + "/network/connections", apiKey,
        Obj(map["login_token" := Str(token), "country" := Str(COUNTRY),
                "start_page" := Int(start), "end_page" := Int(start + WINDOW_OFFSET)]))
  }

  /** An inbox request; `next_cursor` is present only when there is a cursor. */
  function InboxRequest(apiKey: string, token: string, cursor: Option<string>): Request
  {
    var fields := map["login_token" := Str(token), "country" := Str(COUNTRY), "total_results" := Int(INBOX_PAGE_SIZE)];
    PostJson(V1_API_URL + "/messages/inbox", apiKey,
      Obj(if cursor.Some? then fields["next_cursor" := Str(cursor.value)] else fields))
  }

  /** A profile or company request posts the URL it was given, the
      client's token and `country: "US"` under `V1_API_URL`. */
  lemma SingleRequestShapes(apiKey: string, token: string, url: string)
    ensures forall r :: r in {ProfileRequest(apiKey, token, url), CompanyRequest(apiKey, token, url)} ==>
      HasPrefix(r.url, V1_API_URL) && r.apiKey == apiKey
      && Get(r.body, "login_token") == Str(token) && Get(r.body, "country") == Str("US")
    ensures Get(ProfileRequest(apiKey, token, url).body, "linkedin_url") == Str(url)
    ensures Get(CompanyRequest(apiKey, token, url).body, "company_url") == Str(url)
  {
  }

  /** A window request asks for the ten pages `start ..= start + 9`, with
      the client's token and `country: "US"`, under `V1_API_URL`. */
  lemma WindowRequestShape(apiKey: string, token: string, listing: Listing, start: int)
    ensures var r := WindowRequest(apiKey, token, listing, start);
      HasPrefix(r.url, V1_API_URL) && r.apiKey == apiKey
      && Get(r.body, "login_token") == Str(token) && Get(r.body, "country") == Str("US")
      && Get(r.body, "start_page") == Int(start) && Get(r.body, "end_page") == Int(start + 9)
    ensures listing.Messages? ==>
      Get(WindowRequest(apiKey, token, listing, start).body, "conversation_id") == Str(listing.conversationId)
  {
  }

  /** An inbox request asks for 25 conversations with the client's token
      and `country: "US"`, under `V1_API_URL`, and carries `next_cursor`
      exactly when it has a cursor. */
  lemma InboxRequestShape(apiKey: string, token: string, cursor: Option<string>)
    ensures var r := InboxRequest(apiKey, token, cursor);
      HasPrefix(r.url, V1_API_URL) && r.apiKey == apiKey
      && Get(r.body, "login_token") == Str(token) && Get(r.body, "country") == Str("US")
      && Get(r.body, "total_results") == Int(25)
      && Get(r.body, "next_cursor") == if cursor.Some? then Str(cursor.value) else Null
  {
  }


  // ===== reading the replies =====

  /** The envelope of a reply, when its body is JSON that decodes as one. */
  function FetchEnvelope(resp: Response): Option<FetchResponse>
    requires resp.Received?
  {
    if resp.json.Some? then DecodeFetch(resp.json.value) else None
  }

  /** `login`'s reading of the reply to its one request. */
  function InterpretLogin(resp: Response): (r: Result<LoginResult, LoginError>)
    ensures resp.Failed? ==> r == Err(LoginErrorFromHttp(resp.error))
    ensures r.Err? && r.error.error.Http? ==> resp.Failed?
    ensures r.Ok? ==> resp.Received? && resp.json.Some? && Tag(resp.json.value) == Some("success")
    ensures r.Ok? && r.value.GotToken? ==>
      Get(resp.json.value, "login_token") == Str(r.value.loginToken) && StringField(resp.json.value, "message").Some?
    ensures r.Ok? && r.value.NeedCode? ==>
      Get(resp.json.value, "message") == Str(r.value.message)
      && StringField(resp.json.value, "email").Some? && StringField(resp.json.value, "login_token").None?
    ensures r.Err? && r.error.error.Api? ==>
      resp.Received? && resp.json.Some? && Tag(resp.json.value) == Some("error")
      && Get(resp.json.value, "message") == Str(r.error.error.message)
    ensures (r.Err? && r.error.error.ParseError?) <==>
      resp.Received? && (resp.json.None? || DecodeLogin(resp.json.value).None?)
    ensures r.Err? && r.error.error.ParseError? ==> r.error.error.status == resp.status && r.error.error.body == resp.body
    ensures r.Err? ==> !r.error.error.InvalidJson?
  {
    match resp
    case Failed(e) => Err(LoginErrorFromHttp(e))
    case Received(status, body, json) =>
      match if json.Some? then DecodeLogin(json.value) else None
      case Some(Success(WithToken(token, _))) => Ok(GotToken(token))
      case Some(Success(NeedCode(_, message))) => Ok(LoginResult.NeedCode(message))
      case Some(Error(message)) => Err(LoginError.Request(Api(message)))
      case None => Err(LoginError.Request(ParseError(status, body)))
  }

  /** `verify`'s reading of the reply to its one request. */
  function InterpretVerify(resp: Response): (r: Result<string, VerifyError>)
    ensures resp.Failed? ==> r == Err(VerifyErrorFromHttp(resp.error))
    ensures r.Err? && r.error.error.Http? ==> resp.Failed?
    ensures r.Ok? ==>
      resp.Received? && resp.json.Some? && Tag(resp.json.value) == Some("success")
      && Get(resp.json.value, "login_token") == Str(r.value)
    ensures r.Err? && r.error.error.Api? ==>
      resp.Received? && resp.json.Some? && Tag(resp.json.value) == Some("error")
      && Get(resp.json.value, "message") == Str(r.error.error.message)
    ensures (r.Err? && r.error.error.ParseError?) <==>
      resp.Received? && (resp.json.None? || DecodeVerify(resp.json.value).None?)
    ensures r.Err? && r.error.error.ParseError? ==> r.error.error.status == resp.status && r.error.error.body == resp.body
    ensures r.Err? ==> !r.error.error.InvalidJson?
  {
    match resp
    case Failed(e) => Err(VerifyErrorFromHttp(e))
    case Received(status, body, json) =>
      match if json.Some? then DecodeVerify(json.value) else None
      case Some(Success(token, _)) => Ok(token)
      case Some(Error(message)) => Err(VerifyError.Request(Api(message)))
      case None => Err(VerifyError.Request(ParseError(status, body)))
  }

  /** The reading every fetch operation gives the reply to a request: the
      `data` of a success envelope, untouched, or the error. */
  function InterpretFetch(resp: Response): (r: Result<Json, FetchError>)
    ensures r.Ok? ==> resp.Received?
    ensures r.Err? ==> r.error.Request? && !r.error.error.InvalidJson?
  {
    match resp
    case Failed(e) => Err(FetchErrorFromHttp(e))
    case Received(status, body, _) =>
      match FetchEnvelope(resp)
      case Some(Success(data)) => Ok(data)
      case Some(Error(message)) => Err(FetchError.Request(Api(message)))
      case None => Err(FetchError.Request(ParseError(status, body)))
  }

  /** What `InterpretFetch` makes of a reply: a transport failure is passed
      on, and only a transport failure gives an `Http` error; a success
      envelope gives its `data` member untouched; an error envelope gives
      its `message` verbatim; a reply that is not an envelope gives a parse
      error with the reply's status and text; never `InvalidJson`. */
  lemma FetchReplyMeaning(resp: Response)
    ensures var r := InterpretFetch(resp);
      && (resp.Failed? ==> r == Err(FetchErrorFromHttp(resp.error)))
      && (r.Err? && r.error.Request? && r.error.error.Http? ==> resp.Failed?)
      && (r.Ok? <==> resp.Received? && FetchEnvelope(resp).Some? && FetchEnvelope(resp).value.Success?)
      && (r.Ok? ==> resp.json.value.Obj? && resp.json.value.fields["data"] == r.value)
      && (r.Err? ==> r.error.Request? && !r.error.error.InvalidJson?)
      && (r.Err? && r.error.error.Api? ==>
            resp.Received? && resp.json.Some? && Tag(resp.json.value) == Some("error")
            && Get(resp.json.value, "message") == Str(r.error.error.message))
      && ((r.Err? && r.error.error.ParseError?) <==> resp.Received? && FetchEnvelope(resp).None?)
      && (r.Err? && r.error.error.ParseError? ==> r.error.error.status == resp.status && r.error.error.body == resp.body)
  {
  }

  /** `PageAt`, `WindowPageAt` and `InboxPageAt` are all "the reply to
      request `k`", as `ReplyAt` gives it, read three ways; the lemmas
      `PageAtReply`, `WindowPageAtReply` and `InboxPageAtReply` state so.
      They count off the script recursively rather than call `ReplyAt`
      only so that a proof mentioning many pages unfolds a reply's reading
      once, which keeps the loop proofs small. Past the end of the script each
      reads the transport error. */
  function PageAt(replies: seq<Response>, k: nat): (r: Result<Json, FetchError>)
    ensures k >= |replies| ==> r == Err(FetchErrorFromHttp(EXHAUSTED))
    decreases |replies|
  {
    if replies == [] then InterpretFetch(Failed(EXHAUSTED))
    else if k == 0 then InterpretFetch(replies[0])
    else PageAt(replies[1..], k - 1)
  }

  /** Counting off the script reads the reply that request `k` meets. */
  lemma {:induction false} PageAtReply(replies: seq<Response>, k: nat)
    ensures PageAt(replies, k) == InterpretFetch(ReplyAt(replies, k))
    decreases |replies|
  {
    if replies != [] && k > 0 {
      PageAtReply(replies[1..], k - 1);
    }
  }

  /** The walk a paginated operation takes: its result and the requests it sent. */
  datatype Walk<T> = Walk(result: Result<T, FetchError>, sent: seq<Request>)

  /** Items found before a result: added in front of a success, dropped on an error. */
  function Prepend(items: seq<Json>, r: Result<seq<Json>, FetchError>): Result<seq<Json>, FetchError>
  {
    if r.Ok? then Ok(items + r.value) else r
  }

  // ===== page-window pagination =====

  /** What one page of a window walk contributes, and whether the walk goes on. */
  datatype Step = More(items: seq<Json>) | Last(items: seq<Json>)

  /** The stop rules of the two window walks, applied to one page's `data`. */
  function PageStep(listing: Listing, data: Json): (r: Step)
    ensures var key := if listing.Messages? then "messages" else "connections";
      r.items != [] ==> Get(data, key).Arr? && r.items == Get(data, key).items
  {
    match listing
    case Messages(_) =>
      (match AsArray(Get(data, "messages"))
       case None => Last([])
       case Some(messages) =>
         var perPage := AsU64(Get(Get(data, "pagination"), "messages_per_page"));
         if perPage.None? || |messages| < perPage.value then Last(messages) else More(messages))
    case Connections() =>
      match AsArray(Get(data, "connections"))
      case None => Last([])
      case Some(connections) =>
        if |connections| == 0 then Last([])
        else if AsU64(Get(data, "total_results")) == Some(0) then Last([])
        else More(connections)
  }

  /** The stop rules of `fetch_conversation`: a page without a
      `messages` array adds nothing and stops; one with it adds all of it,
      and asks for more exactly when it declares a page size and holds at
      least that many messages. */
  lemma MessagesPageStep(id: string, data: Json)
    ensures var r := PageStep(Messages(id), data);
      && (AsArray(Get(data, "messages")).None? ==> r == Last([]))
      && (AsArray(Get(data, "messages")).Some? ==>
            r.items == Get(data, "messages").items
            && (r.More? <==> AsU64(Get(Get(data, "pagination"), "messages_per_page")).Some?
                             && |r.items| >= AsU64(Get(Get(data, "pagination"), "messages_per_page")).value))
  {
  }

  /** The stop rules of `fetch_connections`: a page adds its `connections`
      and asks for more exactly when they form a non-empty array and
      `total_results` is not 0; otherwise it adds nothing and stops. */
  lemma ConnectionsPageStep(data: Json)
    ensures var r := PageStep(Connections, data);
      && (r.Last? <==> r.items == [])
      && (r.More? <==> Get(data, "connections").Arr? && Get(data, "connections").items != []
                       && AsU64(Get(data, "total_results")) != Some(0))
      && (r.More? ==> r.items == Get(data, "connections").items)
  {
  }


  /** A reply read as one page of a window walk. */
  function WindowReading(listing: Listing, resp: Response): Result<Step, FetchError>
  {
    match InterpretFetch(resp)
    case Err(e) => Err(e)
    case Ok(data) => Ok(PageStep(listing, data))
  }

  /** The reply to request `k` read as one page of a window walk. */
  function WindowPageAt(listing: Listing, replies: seq<Response>, k: nat): (r: Result<Step, FetchError>)
    ensures k >= |replies| ==> r == Err(FetchErrorFromHttp(EXHAUSTED))
    decreases |replies|
  {
    if replies == [] then WindowReading(listing, Failed(EXHAUSTED))
    else if k == 0 then WindowReading(listing, replies[0])
    else WindowPageAt(listing, replies[1..], k - 1)
  }

  /** A window page is the reading of the reply that request `k` meets, and
      it fails exactly when that reply's reading does, with its error. */
  lemma {:induction false} WindowPageAtReply(listing: Listing, replies: seq<Response>, k: nat)
    ensures WindowPageAt(listing, replies, k) == WindowReading(listing, ReplyAt(replies, k))
    ensures WindowPageAt(listing, replies, k).Err? <==> PageAt(replies, k).Err?
    ensures WindowPageAt(listing, replies, k).Err? ==> WindowPageAt(listing, replies, k).error == PageAt(replies, k).error
    decreases |replies|
  {
    PageAtReply(replies, k);
    if replies != [] && k > 0 {
      WindowPageAtReply(listing, replies[1..], k - 1);
    }
  }

  /** Requests window `start ..= start + 9`, then the next window, until a
      page says stop; an error reply ends the walk with that error. */
  function WindowWalk(apiKey: string, token: string, listing: Listing, replies: seq<Response>, k: nat, start: int)
    : (w: Walk<seq<Json>>)
    ensures |w.sent| >= 1 && w.sent[0] == WindowRequest(apiKey, token, listing, start)
    decreases |replies| - k
  {
    var req := WindowRequest(apiKey, token, listing, start);
    match WindowPageAt(listing, replies, k)
    case Err(e) => Walk(Err(e), [req])
    case Ok(Last(items)) => Walk(Ok(items), [req])
    case Ok(More(items)) =>
      var rest := WindowWalk(apiKey, token, listing, replies, k + 1, start + WINDOW_OFFSET + 1);
      Walk(Prepend(items, rest.result), [req] + rest.sent)
  }

  /** Page `j` was read and asks for the next window. */
  predicate Continues(listing: Listing, replies: seq<Response>, j: nat)
  {
    WindowPageAt(listing, replies, j).Ok? && WindowPageAt(listing, replies, j).value.More?
  }

  /** The items page `j` contributes (none when it could not be read). */
  function PageItems(listing: Listing, replies: seq<Response>, j: nat): seq<Json>
  {
    if WindowPageAt(listing, replies, j).Ok? then WindowPageAt(listing, replies, j).value.items else []
  }

  /** The items of pages `k .. k + n - 1`, in page order. */
  function Collected(listing: Listing, replies: seq<Response>, k: nat, n: nat): seq<Json>
    decreases n
  {
    if n == 0 then [] else Collected(listing, replies, k, n - 1) + PageItems(listing, replies, k + n - 1)
  }

  lemma {:induction false} CollectedCons(listing: Listing, replies: seq<Response>, k: nat, n: nat)
    ensures Collected(listing, replies, k, n + 1) == PageItems(listing, replies, k) + Collected(listing, replies, k + 1, n)
    decreases n
  {
    if n > 0 {
      CollectedCons(listing, replies, k, n - 1);
      assert Collected(listing, replies, k, n + 1)
          == Collected(listing, replies, k, n) + PageItems(listing, replies, k + n);
    }
  }

  /** One step of a window walk: a page that asks for more adds its items
      in front of the rest of the walk, from the next window on. */
  lemma WindowWalkUnfold(apiKey: string, token: string, listing: Listing, replies: seq<Response>, k: nat, start: int)
    ensures var w := WindowWalk(apiKey, token, listing, replies, k, start);
      var req := WindowRequest(apiKey, token, listing, start);
      if Continues(listing, replies, k) then
        k < |replies|
        && var rest := WindowWalk(apiKey, token, listing, replies, k + 1, start + 10);
           w == Walk(Prepend(PageItems(listing, replies, k), rest.result), [req] + rest.sent)
      else
        w == Walk(if WindowPageAt(listing, replies, k).Err? then Err(WindowPageAt(listing, replies, k).error)
                  else Ok(PageItems(listing, replies, k)), [req])
  {
  }

  /** The requests for `n` consecutive windows, the first from page `start`. */
  function Windows(apiKey: string, token: string, listing: Listing, start: int, n: nat): seq<Request>
    decreases n
  {
    if n == 0 then [] else Windows(apiKey, token, listing, start, n - 1) + [WindowRequest(apiKey, token, listing, start + 10 * (n - 1))]
  }

  lemma {:induction false} WindowsCons(apiKey: string, token: string, listing: Listing, start: int, n: nat)
    ensures Windows(apiKey, token, listing, start, n + 1)
         == [WindowRequest(apiKey, token, listing, start)] + Windows(apiKey, token, listing, start + 10, n)
    decreases n
  {
    if n > 0 {
      WindowsCons(apiKey, token, listing, start, n - 1);
      assert start + 10 + 10 * (n - 1) == start + 10 * n;
      assert Windows(apiKey, token, listing, start, n + 1)
          == Windows(apiKey, token, listing, start, n) + [WindowRequest(apiKey, token, listing, start + 10 * n)];
    }
  }

  /** A window walk is determined by the page where it stops: when pages
      `k .. k + n - 1` ask for more and page `k + n` does not, the walk sent
      the requests for `n + 1` windows, and its result is the error of page
      `k + n` or the items of all `n + 1` pages in order. */
  lemma {:induction false} WindowWalkDetermined(apiKey: string, token: string, listing: Listing, replies: seq<Response>,
                                                k: nat, start: int, n: nat)
    requires forall j :: k <= j < k + n ==> Continues(listing, replies, j)
    requires !Continues(listing, replies, k + n)
    ensures var w := WindowWalk(apiKey, token, listing, replies, k, start);
      w.sent == Windows(apiKey, token, listing, start, n + 1)
      && w.result == (if WindowPageAt(listing, replies, k + n).Err? then Err(WindowPageAt(listing, replies, k + n).error)
                      else Ok(Collected(listing, replies, k, n + 1)))
    decreases n
  {
    WindowWalkUnfold(apiKey, token, listing, replies, k, start);
    if n == 0 {
      assert Collected(listing, replies, k, 1) == PageItems(listing, replies, k);
      assert Windows(apiKey, token, listing, start, 1) == [WindowRequest(apiKey, token, listing, start)];
    } else {
      WindowWalkDetermined(apiKey, token, listing, replies, k + 1, start + 10, n - 1);
      WindowsCons(apiKey, token, listing, start, n);
      CollectedCons(listing, replies, k, n);
    }
  }

  /** The requests of a window walk: the i-th asks for the window that
      starts at page `start + 10 i` (and ends 9 pages later); it sends at
      most one request more than the script has replies. */
  lemma {:induction false} WindowWalkRequests(apiKey: string, token: string, listing: Listing, replies: seq<Response>, k: nat, start: int)
    ensures var w := WindowWalk(apiKey, token, listing, replies, k, start);
      (|w.sent| == 1 || k + |w.sent| <= |replies| + 1)
      && forall i :: 0 <= i < |w.sent| ==> w.sent[i] == WindowRequest(apiKey, token, listing, start + 10 * i)
    decreases |replies| - k
  {
    var w := WindowWalk(apiKey, token, listing, replies, k, start);
    WindowWalkUnfold(apiKey, token, listing, replies, k, start);
    if Continues(listing, replies, k) {
      var rest := WindowWalk(apiKey, token, listing, replies, k + 1, start + 10);
      WindowWalkRequests(apiKey, token, listing, replies, k + 1, start + 10);
      forall i | 0 <= i < |w.sent|
        ensures w.sent[i] == WindowRequest(apiKey, token, listing, start + 10 * i)
      {
        if i > 0 {
          assert w.sent[i] == rest.sent[i - 1];
        }
      }
    }
  }

  /** Where a window walk stops: every page but the last asked for more,
      the last did not. */
  lemma {:induction false} WindowWalkStops(apiKey: string, token: string, listing: Listing, replies: seq<Response>, k: nat, start: int)
    ensures var n := |WindowWalk(apiKey, token, listing, replies, k, start).sent|;
      (forall j :: k <= j < k + n - 1 ==> Continues(listing, replies, j))
      && !Continues(listing, replies, k + n - 1)
    decreases |replies| - k
  {
    WindowWalkUnfold(apiKey, token, listing, replies, k, start);
    if Continues(listing, replies, k) {
      WindowWalkStops(apiKey, token, listing, replies, k + 1, start + 10);
    }
  }

  /** What a window walk returns: the concatenation of all pages' items in
      request order, unless the last reply was an error, which is then the
      result and discards the items gathered so far. */
  lemma {:induction false} WindowWalkResult(apiKey: string, token: string, listing: Listing, replies: seq<Response>, k: nat, start: int)
    ensures var w := WindowWalk(apiKey, token, listing, replies, k, start);
      var last := WindowPageAt(listing, replies, k + |w.sent| - 1);
      w.result == (if last.Err? then Err(last.error) else Ok(Collected(listing, replies, k, |w.sent|)))
    decreases |replies| - k
  {
    WindowWalkUnfold(apiKey, token, listing, replies, k, start);
    if Continues(listing, replies, k) {
      var rest := WindowWalk(apiKey, token, listing, replies, k + 1, start + 10);
      WindowWalkResult(apiKey, token, listing, replies, k + 1, start + 10);
      CollectedCons(listing, replies, k, |rest.sent|);
    } else {
      assert Collected(listing, replies, k, 1) == PageItems(listing, replies, k);
    }
  }

  /** A window walk in which every remaining reply asks for more does not
      stop on its own: it sends one request per remaining reply and one
      more, which finds the script exhausted, and fails with that
      transport error, dropping every item. */
  lemma {:induction false} EndlessWindowWalk(apiKey: string, token: string, listing: Listing, replies: seq<Response>, k: nat, start: int)
    requires k <= |replies|
    requires forall j :: k <= j < |replies| ==> Continues(listing, replies, j)
    ensures var w := WindowWalk(apiKey, token, listing, replies, k, start);
      |w.sent| == |replies| - k + 1 && w.result == Err(FetchErrorFromHttp(EXHAUSTED))
    decreases |replies| - k
  {
    WindowWalkUnfold(apiKey, token, listing, replies, k, start);
    if k < |replies| {
      EndlessWindowWalk(apiKey, token, listing, replies, k + 1, start + 10);
    }
  }

  /** A messages page that declares a page size of 0 asks for more whatever
      it holds, so a conversation that always answers so is read until the
      script runs out. */
  lemma ZeroPageSizeAsksForMore(id: string, data: Json)
    requires AsArray(Get(data, "messages")).Some?
    requires AsU64(Get(Get(data, "pagination"), "messages_per_page")) == Some(0)
    ensures PageStep(Messages(id), data).More?
    ensures PageStep(Messages(id), data).items == Get(data, "messages").items
  {
  }

  // ===== cursor pagination =====

  /** A reply read as an inbox page: a success envelope whose `data`
      decodes as `InboxData`; other data is `InvalidJson`. */
  function InboxReading(resp: Response): Result<InboxData, FetchError>
  {
    match InterpretFetch(resp)
    case Err(e) => Err(e)
    case Ok(data) =>
      match DecodeInboxData(data)
      case None => Err(FetchError.Request(InvalidJson))
      case Some(page) => Ok(page)
  }

  /** The reply to request `k` read as an inbox page. */
  function InboxPageAt(replies: seq<Response>, k: nat): (r: Result<InboxData, FetchError>)
    ensures k >= |replies| ==> r == Err(FetchErrorFromHttp(EXHAUSTED))
    decreases |replies|
  {
    if replies == [] then InboxReading(Failed(EXHAUSTED))
    else if k == 0 then InboxReading(replies[0])
    else InboxPageAt(replies[1..], k - 1)
  }

  /** An inbox page is the reading of the reply that request `k` meets. */
  lemma {:induction false} InboxPageAtReply(replies: seq<Response>, k: nat)
    ensures InboxPageAt(replies, k) == InboxReading(ReplyAt(replies, k))
    decreases |replies|
  {
    if replies != [] && k > 0 {
      InboxPageAtReply(replies[1..], k - 1);
    }
  }

  /** An inbox page is read exactly when the reply is a success envelope
      whose `data` decodes; data that does not decode is `InvalidJson`; the
      reply's own error is passed on. */
  lemma InboxPageMeaning(resp: Response)
    ensures var r := InboxReading(resp);
      && (r.Ok? <==> InterpretFetch(resp).Ok? && DecodeInboxData(InterpretFetch(resp).value).Some?)
      && (r.Err? && InterpretFetch(resp).Ok? ==> r.error == FetchError.Request(InvalidJson))
      && (InterpretFetch(resp).Err? ==> r == Err(InterpretFetch(resp).error))
  {
  }

  /** Requests inbox pages, the first without a cursor and each later one
      with the cursor of the page before, until a page has no cursor. */
  function InboxWalk(apiKey: string, token: string, replies: seq<Response>, k: nat, cursor: Option<string>)
    : (w: Walk<seq<Json>>)
    ensures |w.sent| >= 1 && w.sent[0] == InboxRequest(apiKey, token, cursor)
    decreases |replies| - k
  {
    var req := InboxRequest(apiKey, token, cursor);
    match InboxPageAt(replies, k)
    case Err(e) => Walk(Err(e), [req])
    case Ok(page) =>
      if page.nextCursor.None? then Walk(Ok(page.conversations), [req])
      else
        var rest := InboxWalk(apiKey, token, replies, k + 1, page.nextCursor);
        Walk(Prepend(page.conversations, rest.result), [req] + rest.sent)
  }

  /** Page `j` was read and names a next page. */
  predicate HasNextPage(replies: seq<Response>, j: nat)
  {
    InboxPageAt(replies, j).Ok? && InboxPageAt(replies, j).value.nextCursor.Some?
  }

  /** The cursor page `j` hands on (none when it could not be read). */
  function CursorAfter(replies: seq<Response>, j: nat): Option<string>
  {
    if InboxPageAt(replies, j).Ok? then InboxPageAt(replies, j).value.nextCursor else None
  }

  /** The conversations page `j` contributes (none when it could not be read). */
  function InboxItems(replies: seq<Response>, j: nat): seq<Json>
  {
    if InboxPageAt(replies, j).Ok? then InboxPageAt(replies, j).value.conversations else []
  }

  /** The conversations of inbox pages `k .. k + n - 1`, in page order. */
  function Gathered(replies: seq<Response>, k: nat, n: nat): seq<Json>
    decreases n
  {
    if n == 0 then [] else Gathered(replies, k, n - 1) + InboxItems(replies, k + n - 1)
  }

  lemma {:induction false} GatheredCons(replies: seq<Response>, k: nat, n: nat)
    ensures Gathered(replies, k, n + 1) == InboxItems(replies, k) + Gathered(replies, k + 1, n)
    decreases n
  {
    if n > 0 {
      GatheredCons(replies, k, n - 1);
      assert Gathered(replies, k, n + 1) == Gathered(replies, k, n) + InboxItems(replies, k + n);
    }
  }

  /** The requests of the first `n` pages of an inbox walk that starts
      with `cursor` at request `k`: each later page carries the cursor of
      the page before. */
  function InboxRequests(apiKey: string, token: string, replies: seq<Response>, k: nat, cursor: Option<string>, n: nat)
    : seq<Request>
    decreases n
  {
    if n == 0 then []
    else InboxRequests(apiKey, token, replies, k, cursor, n - 1)
         + [InboxRequest(apiKey, token, if n == 1 then cursor else CursorAfter(replies, k + n - 2))]
  }

  lemma {:induction false} InboxRequestsCons(apiKey: string, token: string, replies: seq<Response>, k: nat, cursor: Option<string>, n: nat)
    ensures InboxRequests(apiKey, token, replies, k, cursor, n + 1)
         == [InboxRequest(apiKey, token, cursor)] + InboxRequests(apiKey, token, replies, k + 1, CursorAfter(replies, k), n)
    decreases n
  {
    if n > 0 {
      InboxRequestsCons(apiKey, token, replies, k, cursor, n - 1);
      assert InboxRequests(apiKey, token, replies, k, cursor, n + 1)
          == InboxRequests(apiKey, token, replies, k, cursor, n) + [InboxRequest(apiKey, token, CursorAfter(replies, k + n - 1))];
    }
  }

  /** An inbox walk is fixed by where it stops: when the `n` pages from
      request `k` on all carry a cursor and page `k + n` does not, the walk
      sends exactly `n + 1` requests and returns the conversations of those
      pages, or the last page's error. */
  lemma {:induction false} InboxWalkDetermined(apiKey: string, token: string, replies: seq<Response>,
                                               k: nat, cursor: Option<string>, n: nat)
    requires forall j :: k <= j < k + n ==> HasNextPage(replies, j)
    requires !HasNextPage(replies, k + n)
    ensures var w := InboxWalk(apiKey, token, replies, k, cursor);
      w.sent == InboxRequests(apiKey, token, replies, k, cursor, n + 1)
      && w.result == (if InboxPageAt(replies, k + n).Err? then Err(InboxPageAt(replies, k + n).error)
                      else Ok(Gathered(replies, k, n + 1)))
    decreases n
  {
    InboxWalkUnfold(apiKey, token, replies, k, cursor);
    if n == 0 {
      assert Gathered(replies, k, 1) == InboxItems(replies, k);
      assert InboxRequests(apiKey, token, replies, k, cursor, 1) == [InboxRequest(apiKey, token, cursor)];
    } else {
      InboxWalkDetermined(apiKey, token, replies, k + 1, CursorAfter(replies, k), n - 1);
      InboxRequestsCons(apiKey, token, replies, k, cursor, n);
      GatheredCons(replies, k, n);
    }
  }

  /** One step of an inbox walk: a page that names a next page adds its
      conversations in front of the walk that continues from its cursor. */
  lemma InboxWalkUnfold(apiKey: string, token: string, replies: seq<Response>, k: nat, cursor: Option<string>)
    ensures var w := InboxWalk(apiKey, token, replies, k, cursor);
      var req := InboxRequest(apiKey, token, cursor);
      if HasNextPage(replies, k) then
        k < |replies|
        && var rest := InboxWalk(apiKey, token, replies, k + 1, CursorAfter(replies, k));
           w == Walk(Prepend(InboxPageAt(replies, k).value.conversations, rest.result), [req] + rest.sent)
      else
        w == Walk(if InboxPageAt(replies, k).Err? then Err(InboxPageAt(replies, k).error)
                  else Ok(InboxPageAt(replies, k).value.conversations), [req])
  {
  }

  /** The requests of an inbox walk: the first carries the starting cursor,
      each later one the cursor of the page before; every one asks for
      25 results. */
  lemma {:induction false} InboxWalkRequests(apiKey: string, token: string, replies: seq<Response>, k: nat, cursor: Option<string>)
    ensures var w := InboxWalk(apiKey, token, replies, k, cursor);
      (|w.sent| == 1 || k + |w.sent| <= |replies| + 1)
      && w.sent[0] == InboxRequest(apiKey, token, cursor)
      && (forall i :: 1 <= i < |w.sent| ==> w.sent[i] == InboxRequest(apiKey, token, CursorAfter(replies, k + i - 1)))
    decreases |replies| - k
  {
    var w := InboxWalk(apiKey, token, replies, k, cursor);
    InboxWalkUnfold(apiKey, token, replies, k, cursor);
    if HasNextPage(replies, k) {
      var rest := InboxWalk(apiKey, token, replies, k + 1, CursorAfter(replies, k));
      InboxWalkRequests(apiKey, token, replies, k + 1, CursorAfter(replies, k));
      forall i | 1 <= i < |w.sent|
        ensures w.sent[i] == InboxRequest(apiKey, token, CursorAfter(replies, k + i - 1))
      {
        assert w.sent[i] == rest.sent[i - 1];
      }
    }
  }

  /** Every request of an inbox walk asks for 25 conversations with the
      client's token, and the first carries no `next_cursor` when the walk
      starts without a cursor. */
  lemma {:induction false} InboxWalkPageSize(apiKey: string, token: string, replies: seq<Response>, k: nat, cursor: Option<string>)
    ensures var w := InboxWalk(apiKey, token, replies, k, cursor);
      (cursor.None? ==> Get(w.sent[0].body, "next_cursor") == Null)
      && forall i :: 0 <= i < |w.sent| ==>
           Get(w.sent[i].body, "total_results") == Int(25) && Get(w.sent[i].body, "login_token") == Str(token)
  {
    var w := InboxWalk(apiKey, token, replies, k, cursor);
    InboxWalkRequests(apiKey, token, replies, k, cursor);
    forall i | 0 <= i < |w.sent|
      ensures Get(w.sent[i].body, "total_results") == Int(25) && Get(w.sent[i].body, "login_token") == Str(token)
    {
      var c := if i == 0 then cursor else CursorAfter(replies, k + i - 1);
      assert w.sent[i] == InboxRequest(apiKey, token, c);
      InboxRequestShape(apiKey, token, c);
    }
  }

  /** Where an inbox walk stops: exactly at the first page without a
      cursor, or at the first reply that is not an inbox page. */
  lemma {:induction false} InboxWalkStops(apiKey: string, token: string, replies: seq<Response>, k: nat, cursor: Option<string>)
    ensures var n := |InboxWalk(apiKey, token, replies, k, cursor).sent|;
      (forall j :: k <= j < k + n - 1 ==> HasNextPage(replies, j))
      && !HasNextPage(replies, k + n - 1)
    decreases |replies| - k
  {
    InboxWalkUnfold(apiKey, token, replies, k, cursor);
    if HasNextPage(replies, k) {
      InboxWalkStops(apiKey, token, replies, k + 1, CursorAfter(replies, k));
    }
  }

  /** What an inbox walk returns: the concatenation of every page's
      conversations, unless the last reply was an error (or its data did
      not decode), which is then the result and discards the rest. */
  lemma {:induction false} InboxWalkResult(apiKey: string, token: string, replies: seq<Response>, k: nat, cursor: Option<string>)
    ensures var w := InboxWalk(apiKey, token, replies, k, cursor);
      var last := InboxPageAt(replies, k + |w.sent| - 1);
      w.result == (if last.Err? then Err(last.error) else Ok(Gathered(replies, k, |w.sent|)))
    decreases |replies| - k
  {
    InboxWalkUnfold(apiKey, token, replies, k, cursor);
    if HasNextPage(replies, k) {
      var rest := InboxWalk(apiKey, token, replies, k + 1, CursorAfter(replies, k));
      InboxWalkResult(apiKey, token, replies, k + 1, CursorAfter(replies, k));
      GatheredCons(replies, k, |rest.sent|);
    } else {
      assert Gathered(replies, k, 1) == InboxItems(replies, k);
    }
  }

  /** The id of a conversation record, when it has a string `conversation_id`. */
  function IdOf(conversation: Json): Option<string>
  {
    AsStr(Get(conversation, "conversation_id"))
  }

  /** The record's id contains the fragment being looked for. */
  predicate IsMatch(conversation: Json, fragment: string)
  {
    IdOf(conversation).Some? && Contains(IdOf(conversation).value, fragment)
  }

  /** The id of `/messaging/thread/` is empty, and the empty fragment
      matches exactly the records that have a string `conversation_id`. */
  lemma EmptyFragmentMatchesEveryId(conversation: Json)
    ensures ConversationIdOf("/messaging/thread/") == ""
    ensures IsMatch(conversation, "") <==> IdOf(conversation).Some?
  {
    if IdOf(conversation).Some? {
      assert OccursAt(IdOf(conversation).value, "", 0);
    }
  }

  /** The id of the first record, in order, whose id contains `fragment`;
      records without a string id are passed over. */
  function FirstMatch(conversations: seq<Json>, fragment: string): Option<string>
    decreases |conversations|
  {
    if |conversations| == 0 then None
    else if IsMatch(conversations[0], fragment) then IdOf(conversations[0])
    else FirstMatch(conversations[1..], fragment)
  }

  /** `FirstMatch` finds nothing exactly when no record matches, and
      otherwise the id of a matching record before which none matches. */
  lemma {:induction false} FirstMatchIsFirst(conversations: seq<Json>, fragment: string)
    ensures FirstMatch(conversations, fragment).None? <==>
      forall i :: 0 <= i < |conversations| ==> !IsMatch(conversations[i], fragment)
    ensures FirstMatch(conversations, fragment).Some? ==>
      exists i :: 0 <= i < |conversations| && IsMatch(conversations[i], fragment)
                  && IdOf(conversations[i]) == FirstMatch(conversations, fragment)
                  && (forall j :: 0 <= j < i ==> !IsMatch(conversations[j], fragment))
    decreases |conversations|
  {
    if |conversations| > 0 && !IsMatch(conversations[0], fragment) {
      var tail := conversations[1..];
      FirstMatchIsFirst(tail, fragment);
      assert forall i :: 1 <= i < |conversations| ==> conversations[i] == tail[i - 1];
      if FirstMatch(tail, fragment).Some? {
        var i :| 0 <= i < |tail| && IsMatch(tail[i], fragment) && IdOf(tail[i]) == FirstMatch(tail, fragment)
                 && (forall j :: 0 <= j < i ==> !IsMatch(tail[j], fragment));
        assert IsMatch(conversations[i + 1], fragment);
      }
    }
  }

  lemma {:induction false} FirstMatchAppend(a: seq<Json>, b: seq<Json>, fragment: string)
    ensures FirstMatch(a + b, fragment) == if FirstMatch(a, fragment).Some? then FirstMatch(a, fragment) else FirstMatch(b, fragment)
    decreases |a|
  {
    if |a| > 0 {
      assert (a + b)[1..] == a[1..] + b;
      FirstMatchAppend(a[1..], b, fragment);
    } else {
      assert a + b == b;
    }
  }

  /** Walks the inbox like `InboxWalk`, but returns the first matching id
      as soon as a page holds one, and nothing once the cursor runs out. */
  function FindWalk(apiKey: string, token: string, fragment: string, replies: seq<Response>, k: nat, cursor: Option<string>)
    : (w: Walk<Option<string>>)
    ensures |w.sent| >= 1 && w.sent[0] == InboxRequest(apiKey, token, cursor)
    decreases |replies| - k
  {
    var req := InboxRequest(apiKey, token, cursor);
    match InboxPageAt(replies, k)
    case Err(e) => Walk(Err(e), [req])
    case Ok(page) =>
      var found := FirstMatch(page.conversations, fragment);
      if found.Some? then Walk(Ok(found), [req])
      else if page.nextCursor.None? then Walk(Ok(None), [req])
      else
        var rest := FindWalk(apiKey, token, fragment, replies, k + 1, page.nextCursor);
        Walk(rest.result, [req] + rest.sent)
  }

  /** Page `j` was read, holds no match and names a next page: the lookup
      moves past it. */
  predicate Passes(replies: seq<Response>, j: nat, fragment: string)
  {
    HasNextPage(replies, j) && FirstMatch(InboxPageAt(replies, j).value.conversations, fragment).None?
  }

  /** One step of the lookup beside one step of the inbox walk. */
  lemma FindWalkUnfold(apiKey: string, token: string, fragment: string, replies: seq<Response>, k: nat, cursor: Option<string>)
    ensures var f := FindWalk(apiKey, token, fragment, replies, k, cursor);
      var req := InboxRequest(apiKey, token, cursor);
      if Passes(replies, k, fragment) then
        k < |replies|
        && var rest := FindWalk(apiKey, token, fragment, replies, k + 1, CursorAfter(replies, k));
           f == Walk(rest.result, [req] + rest.sent)
      else
        f.sent == [req]
        && f.result == (if InboxPageAt(replies, k).Err? then Err(InboxPageAt(replies, k).error)
                        else Ok(FirstMatch(InboxPageAt(replies, k).value.conversations, fragment)))
  {
  }

  /** The lookup sends a prefix of the requests of the inbox walk from the
      same point, and moves past a page only when it holds no match: after
      a match it sends nothing more. */
  lemma {:induction false} FindSendsInboxPrefix(apiKey: string, token: string, fragment: string, replies: seq<Response>, k: nat, cursor: Option<string>)
    ensures var f := FindWalk(apiKey, token, fragment, replies, k, cursor);
      var b := InboxWalk(apiKey, token, replies, k, cursor);
      |f.sent| <= |b.sent| && f.sent == b.sent[..|f.sent|]
      && (forall j :: k <= j < k + |f.sent| - 1 ==> Passes(replies, j, fragment))
      && !Passes(replies, k + |f.sent| - 1, fragment)
    decreases |replies| - k
  {
    var f := FindWalk(apiKey, token, fragment, replies, k, cursor);
    var b := InboxWalk(apiKey, token, replies, k, cursor);
    FindWalkUnfold(apiKey, token, fragment, replies, k, cursor);
    InboxWalkUnfold(apiKey, token, replies, k, cursor);
    if Passes(replies, k, fragment) {
      FindSendsInboxPrefix(apiKey, token, fragment, replies, k + 1, CursorAfter(replies, k));
    }
  }

  /** A lookup that fails fails as the inbox walk from the same point does,
      after the same requests. */
  lemma {:induction false} FindErrorIsInboxError(apiKey: string, token: string, fragment: string, replies: seq<Response>, k: nat, cursor: Option<string>)
    ensures var f := FindWalk(apiKey, token, fragment, replies, k, cursor);
      var b := InboxWalk(apiKey, token, replies, k, cursor);
      f.result.Err? ==> b.result == Err(f.result.error) && b.sent == f.sent
    decreases |replies| - k
  {
    FindWalkUnfold(apiKey, token, fragment, replies, k, cursor);
    InboxWalkUnfold(apiKey, token, replies, k, cursor);
    if Passes(replies, k, fragment) {
      FindErrorIsInboxError(apiKey, token, fragment, replies, k + 1, CursorAfter(replies, k));
    }
  }

  /** "Not found" means the inbox walk from the same point reads every page,
      with the same requests, and no conversation in it matches. */
  lemma {:induction false} FindNothingMeansNoMatch(apiKey: string, token: string, fragment: string, replies: seq<Response>, k: nat, cursor: Option<string>)
    ensures var f := FindWalk(apiKey, token, fragment, replies, k, cursor);
      var b := InboxWalk(apiKey, token, replies, k, cursor);
      f.result == Ok(None) ==> b.result.Ok? && FirstMatch(b.result.value, fragment).None? && b.sent == f.sent
    decreases |replies| - k
  {
    var f := FindWalk(apiKey, token, fragment, replies, k, cursor);
    FindWalkUnfold(apiKey, token, fragment, replies, k, cursor);
    InboxWalkUnfold(apiKey, token, replies, k, cursor);
    if Passes(replies, k, fragment) && f.result == Ok(None) {
      var next := CursorAfter(replies, k);
      var rb := InboxWalk(apiKey, token, replies, k + 1, next);
      FindNothingMeansNoMatch(apiKey, token, fragment, replies, k + 1, next);
      FirstMatchAppend(InboxPageAt(replies, k).value.conversations, rb.result.value, fragment);
    }
  }

  /** A found id is the first match, in page-then-record order, among the
      conversations of the pages the lookup read. */
  lemma {:induction false} FindReturnsFirstMatch(apiKey: string, token: string, fragment: string, replies: seq<Response>, k: nat, cursor: Option<string>)
    ensures var f := FindWalk(apiKey, token, fragment, replies, k, cursor);
      f.result.Ok? && f.result.value.Some? ==> FirstMatch(Gathered(replies, k, |f.sent|), fragment) == f.result.value
    decreases |replies| - k
  {
    var f := FindWalk(apiKey, token, fragment, replies, k, cursor);
    FindWalkUnfold(apiKey, token, fragment, replies, k, cursor);
    if f.result.Ok? && f.result.value.Some? {
      var convs := InboxPageAt(replies, k).value.conversations;
      if Passes(replies, k, fragment) {
        var next := CursorAfter(replies, k);
        var rf := FindWalk(apiKey, token, fragment, replies, k + 1, next);
        FindReturnsFirstMatch(apiKey, token, fragment, replies, k + 1, next);
        GatheredCons(replies, k, |rf.sent|);
        FirstMatchAppend(convs, Gathered(replies, k + 1, |rf.sent|), fragment);
      } else {
        assert Gathered(replies, k, 1) == InboxItems(replies, k);
      }
    }
  }

  /** A found id is also what a search of the whole inbox listing would
      find first, whenever that listing succeeds. */
  lemma {:induction false} FindAgreesWithInbox(apiKey: string, token: string, fragment: string, replies: seq<Response>, k: nat, cursor: Option<string>)
    ensures var f := FindWalk(apiKey, token, fragment, replies, k, cursor);
      var b := InboxWalk(apiKey, token, replies, k, cursor);
      f.result.Ok? && f.result.value.Some? && b.result.Ok? ==> FirstMatch(b.result.value, fragment) == f.result.value
    decreases |replies| - k
  {
    var f := FindWalk(apiKey, token, fragment, replies, k, cursor);
    var b := InboxWalk(apiKey, token, replies, k, cursor);
    FindWalkUnfold(apiKey, token, fragment, replies, k, cursor);
    InboxWalkUnfold(apiKey, token, replies, k, cursor);
    if f.result.Ok? && f.result.value.Some? && b.result.Ok? && HasNextPage(replies, k) {
      var convs := InboxPageAt(replies, k).value.conversations;
      var next := CursorAfter(replies, k);
      var rb := InboxWalk(apiKey, token, replies, k + 1, next);
      if Passes(replies, k, fragment) {
        FindAgreesWithInbox(apiKey, token, fragment, replies, k + 1, next);
      }
      FirstMatchAppend(convs, rb.result.value, fragment);
    }
  }

  // ===== routing =====

  /** A URL as `url::Url` parsing leaves it: the parse failed, or its
      serialisation, host (absent for some schemes) and path. */
  datatype Url =
    | Unparsable(reason: string)
    | Url(text: string, host: Option<string>, path: string)

  /** The host test of `fetch`: a plain suffix test on the host text. */
  predicate HostAccepted(host: Option<string>)
  {
    host.Some? && HasSuffix(host.value, "linkedin.com")
  }

  /** The host test is a plain suffix test: every host ending in
      `linkedin.com` passes, such as `evillinkedin.com`, not only
      `linkedin.com` and its subdomains. */
  lemma AnyLinkedinSuffixAccepted(prefix: string)
    ensures HostAccepted(Some(prefix + "linkedin.com"))
    ensures HostAccepted(Some("evillinkedin.com"))
  {
    assert (prefix + "linkedin.com")[|prefix|..] == "linkedin.com";
    assert "evillinkedin.com" == "evil" + "linkedin.com";
    assert ("evil" + "linkedin.com")[4..] == "linkedin.com";
  }

  /** The characters that tell the routed prefixes apart. */
  lemma RouteSignatures(path: string)
    ensures HasPrefix(path, "/in/") ==> path[1] == 'i'
    ensures HasPrefix(path, "/company/") ==> path[1] == 'c'
    ensures HasPrefix(path, "/messaging") ==> path[1] == 'm' && path[2] == 'e'
    ensures HasPrefix(path, "/mynetwork/invite-connect/connections") ==> path[1] == 'm' && path[2] == 'y'
  {
    if HasPrefix(path, "/in/") { assert path[1] == path[..4][1]; }
    if HasPrefix(path, "/company/") { assert path[1] == path[..9][1]; }
    if HasPrefix(path, "/messaging") { assert path[1] == path[..10][1] && path[2] == path[..10][2]; }
    if HasPrefix(path, "/mynetwork/invite-connect/connections") { assert path[1] == path[..37][1] && path[2] == path[..37][2]; }
  }

  datatype Route = ToProfile | ToCompany | ToConversation | ToInbox | ToConnections | NoRoute

  /** First match wins, in the order profile, company, conversation thread,
      any other messaging path, connections. */
  function RouteOf(host: Option<string>, path: string): (r: Route)
    ensures !HostAccepted(host) ==> r == NoRoute
    ensures r == ToProfile <==> HostAccepted(host) && HasPrefix(path, "/in/")
    ensures r == ToCompany <==> HostAccepted(host) && HasPrefix(path, "/company/")
    ensures r == ToConversation <==> HostAccepted(host) && HasPrefix(path, "/messaging/thread/")
    ensures r == ToInbox <==>
      HostAccepted(host) && HasPrefix(path, "/messaging") && !HasPrefix(path, "/messaging/thread/")
    ensures r == ToConnections <==> HostAccepted(host) && HasPrefix(path, "/mynetwork/invite-connect/connections")
  {
    RouteSignatures(path);
    if !HostAccepted(host) then NoRoute
    else if HasPrefix(path, "/in/") then ToProfile
    else if HasPrefix(path, "/company/") then ToCompany
    else if HasPrefix(path, "/messaging/thread/") then ToConversation
    else if HasPrefix(path, "/messaging") then ToInbox
    else if HasPrefix(path, "/mynetwork/invite-connect/connections") then ToConnections
    else NoRoute
  }

  /** The id in `/messaging/thread/:id`: the third piece of the path split
      at `/` (after its leading `/`), which is everything between the prefix
      and the next `/`; it is empty for `/messaging/thread/` itself. */
  function ConversationIdOf(path: string): (id: string)
    requires HasPrefix(path, "/messaging/thread/")
    ensures id == UpToSlash(path[|"/messaging/thread/"|..])
  {
    var rest := path[|"/messaging/thread/"|..];
    assert path[1..] == "messaging" + "/" + ("thread" + "/" + rest);
    SplitAfterWord("messaging", "thread" + "/" + rest);
    SplitAfterWord("thread", rest);
    SplitHead(rest);
    Split(path[1..])[2]
  }

  /** `fetch_conversation`: look the id up in the inbox, then walk the
      windows of the conversation found. */
  function ConversationWalk(apiKey: string, token: string, text: string, path: string, replies: seq<Response>, k: nat)
    : (w: Walk<seq<Json>>)
    requires HasPrefix(path, "/messaging/thread/")
    ensures var lookup := FindWalk(apiKey, token, ConversationIdOf(path), replies, k, None);
      && (lookup.result.Err? ==> w == Walk(Err(lookup.result.error), lookup.sent))
      && (lookup.result == Ok(None) ==> w == Walk(Err(UnknownResource(text)), lookup.sent))
      && (lookup.result.Ok? && lookup.result.value.Some? ==>
            var pages := WindowWalk(apiKey, token, Messages(lookup.result.value.value), replies, k + |lookup.sent|, 1);
            w == Walk(pages.result, lookup.sent + pages.sent))
  {
    var lookup := FindWalk(apiKey, token, ConversationIdOf(path), replies, k, None);
    match lookup.result
    case Err(e) => Walk(Err(e), lookup.sent)
    case Ok(None) => Walk(Err(UnknownResource(text)), lookup.sent)
    case Ok(Some(id)) =>
      var pages := WindowWalk(apiKey, token, Messages(id), replies, k + |lookup.sent|, 1);
      Walk(pages.result, lookup.sent + pages.sent)
  }

  /** A list result of `fetch`, wrapped as a JSON array. */
  function AsJsonArray(r: Result<seq<Json>, FetchError>): (j: Result<Json, FetchError>)
    ensures j.Ok? <==> r.Ok?
    ensures j.Ok? ==> j.value == Arr(r.value)
    ensures j.Err? ==> j.error == r.error
  {
    if r.Ok? then Ok(Arr(r.value)) else Err(r.error)
  }

  /** `Client::fetch`. */
  function FetchWalk(apiKey: string, token: string, url: Url, replies: seq<Response>, k: nat): (w: Walk<Json>)
    ensures url.Unparsable? ==> w == Walk(Err(InvalidUrl(url.reason)), [])
    ensures url.Url? && RouteOf(url.host, url.path) == NoRoute ==> w == Walk(Err(UnknownResource(url.text)), [])
    ensures url.Url? && RouteOf(url.host, url.path) == ToProfile ==>
      w.sent == [ProfileRequest(apiKey, token, url.text)] && w.result == PageAt(replies, k)
    ensures url.Url? && RouteOf(url.host, url.path) == ToCompany ==>
      w.sent == [CompanyRequest(apiKey, token, url.text)] && w.result == PageAt(replies, k)
    ensures url.Url? && RouteOf(url.host, url.path) == ToConversation ==>
      var c := ConversationWalk(apiKey, token, url.text, url.path, replies, k);
      w == Walk(AsJsonArray(c.result), c.sent)
    ensures url.Url? && RouteOf(url.host, url.path) == ToInbox ==>
      var b := InboxWalk(apiKey, token, replies, k, None);
      w == Walk(AsJsonArray(b.result), b.sent)
    ensures url.Url? && RouteOf(url.host, url.path) == ToConnections ==>
      var c := WindowWalk(apiKey, token, Connections, replies, k, 1);
      w == Walk(AsJsonArray(c.result), c.sent)
  {
    match url
    case Unparsable(reason) => Walk(Err(InvalidUrl(reason)), [])
    case Url(text, host, path) =>
      match RouteOf(host, path)
      case NoRoute => Walk(Err(UnknownResource(text)), [])
      case ToProfile => Walk(PageAt(replies, k), [ProfileRequest(apiKey, token, text)])
      case ToCompany => Walk(PageAt(replies, k), [CompanyRequest(apiKey, token, text)])
      case ToConversation =>
        var w := ConversationWalk(apiKey, token, text, path, replies, k);
        Walk(AsJsonArray(w.result), w.sent)
      case ToInbox =>
        var w := InboxWalk(apiKey, token, replies, k, None);
        Walk(AsJsonArray(w.result), w.sent)
      case ToConnections =>
        var w := WindowWalk(apiKey, token, Connections, replies, k, 1);
        Walk(AsJsonArray(w.result), w.sent)
  }
}
