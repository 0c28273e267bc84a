/** The client of src/client.rs: the two handshake calls and the `Client`
    whose `fetch` routes a URL to one of five handlers, four of which loop
    over pages. Every operation is proved to send exactly the requests, and
    return exactly the result, that the walks of module Protocol describe. */
module Client {
  import opened Wrappers
  import opened JsonValue
  import opened Text
  import opened Api
  import opened Errors
  import opened Types
  import opened Transport
  import opened Protocol

  /** `login`: one POST of the credentials; its reply decides the next step. */
  method Login(http: Server, apiKey: string, email: string, password: string)
    returns (r: Result<LoginResult, LoginError>)
    modifies http
    ensures http.log == old(http.log) + [LoginRequest(apiKey, email, password)]
    ensures r == InterpretLogin(ReplyAt(http.replies, |old(http.log)|))
  {
    var resp := http.Post(LoginRequest(apiKey, email, password));
    r := InterpretLogin(resp);
  }

  /** `verify`: one POST of the emailed code; a success carries the token. */
  method Verify(http: Server, apiKey: string, email: string, code: string)
    returns (r: Result<string, VerifyError>)
    modifies http
    ensures http.log == old(http.log) + [VerifyRequest(apiKey, email, code)]
    ensures r == InterpretVerify(ReplyAt(http.replies, |old(http.log)|))
  {
    var resp := http.Post(VerifyRequest(apiKey, email, code));
    r := InterpretVerify(resp);
  }

  class Client {
    const http: Server
    const apiKey: string
    const loginToken: string

    constructor (http: Server, apiKey: string, loginToken: string)
      ensures this.http == http && this.apiKey == apiKey && this.loginToken == loginToken
    {
      this.http := http;
      this.apiKey := apiKey;
      this.loginToken := loginToken;
    }

    /** `Client::fetch`: reject foreign hosts, then route by path prefix. */
    method Fetch(url: Url) returns (r: Result<Json, FetchError>)
      modifies http
      ensures var w := FetchWalk(apiKey, loginToken, url, http.replies, |old(http.log)|);
        r == w.result && http.log == old(http.log) + w.sent
    {
      match url
      case Unparsable(reason) =>
        return Err(InvalidUrl(reason));
      case Url(text, host, path) =>
        if host.None? || !HasSuffix(host.value, "linkedin.com") {
          return Err(UnknownResource(text));
        }
        if HasPrefix(path, "/in/") {
          r := FetchProfile(text);
          return;
        }
        if HasPrefix(path, "/company/") {
          r := FetchCompany(text);
          return;
        }
        if HasPrefix(path, "/messaging/thread/") {
          var messages := FetchConversation(text, path);
          return AsJsonArray(messages);
        }
        if HasPrefix(path, "/messaging") {
          var conversations := FetchInbox();
          return AsJsonArray(conversations);
        }
        if HasPrefix(path, "/mynetwork/invite-connect/connections") {
          var connections := FetchConnections();
          return AsJsonArray(connections);
        }
        return Err(UnknownResource(text));
    }

    /** `fetch_company`: one request; a success's `data` is the result. */
    method FetchCompany(url: string) returns (r: Result<Json, FetchError>)
      modifies http
      ensures http.log == old(http.log) + [CompanyRequest(apiKey, loginToken, url)]
      ensures r == PageAt(http.replies, |old(http.log)|)
    {
      var resp := http.Post(CompanyRequest(apiKey, loginToken, url));
      PageAtReply(http.replies, |old(http.log)|);
      r := InterpretFetch(resp);
    }

    /** `fetch_profile`: one request; a success's `data` is the result. */
    method FetchProfile(url: string) returns (r: Result<Json, FetchError>)
      modifies http
      ensures http.log == old(http.log) + [ProfileRequest(apiKey, loginToken, url)]
      ensures r == PageAt(http.replies, |old(http.log)|)
    {
      var resp := http.Post(ProfileRequest(apiKey, loginToken, url));
      PageAtReply(http.replies, |old(http.log)|);
      r := InterpretFetch(resp);
    }

    /** `fetch_conversation`: resolve the id of `/messaging/thread/:id`
        through the inbox, then gather that conversation's messages window
        by window. */
    method FetchConversation(text: string, path: string) returns (r: Result<seq<Json>, FetchError>)
      requires HasPrefix(path, "/messaging/thread/")
      modifies http
      ensures var w := ConversationWalk(apiKey, loginToken, text, path, http.replies, |old(http.log)|);
        r == w.result && http.log == old(http.log) + w.sent
    {
      var id := ConversationIdOf(path);
      var found := FindConversation(id);
      if found.Err? {
        return Err(found.error);
      }
      if found.value.None? {
        return Err(UnknownResource(text));
      }
      ghost var log0 := http.log;
      r := FetchWindows(Messages(found.value.value));
      assert http.log == old(http.log) + (FindWalk(apiKey, loginToken, id, http.replies, |old(http.log)|, None).sent
        + WindowWalk(apiKey, loginToken, Messages(found.value.value), http.replies, |log0|, 1).sent);
    }

    /** `fetch_connections`: gather the connections window by window. */
    method FetchConnections() returns (r: Result<seq<Json>, FetchError>)
      modifies http
      ensures var w := WindowWalk(apiKey, loginToken, Connections, http.replies, |old(http.log)|, 1);
        r == w.result && http.log == old(http.log) + w.sent
    {
      r := FetchWindows(Connections);
    }

    /** The window loop shared by `fetch_conversation` and
        `fetch_connections`: request pages `start ..= start + 9` from page 1
        on, add each page's items, and move ten pages on until a page stops
        the walk; an error ends it at once. */
    method FetchWindows(listing: Listing) returns (r: Result<seq<Json>, FetchError>)
      modifies http
      ensures var w := WindowWalk(apiKey, loginToken, listing, http.replies, |old(http.log)|, 1);
        r == w.result && http.log == old(http.log) + w.sent
    {
      ghost var k0 := |http.log|;
      ghost var n: nat := 0;
      var items: seq<Json> := [];
      var startPage := 1;
      while true
        invariant |http.log| == k0 + n && startPage == 1 + 10 * n
        invariant http.log == old(http.log) + Windows(apiKey, loginToken, listing, 1, n)
        invariant forall j :: k0 <= j < k0 + n ==> Continues(listing, http.replies, j)
        invariant items == Collected(listing, http.replies, k0, n)
        decreases |http.replies| - |http.log|
      {
        var page := ReadWindow(listing, startPage);
        assert http.log == old(http.log) + Windows(apiKey, loginToken, listing, 1, n + 1);
        if page.Err? {
          WindowWalkDetermined(apiKey, loginToken, listing, http.replies, k0, 1, n);
          return Err(page.error);
        }
        items := items + page.value.items;
        if page.value.Last? {
          WindowWalkDetermined(apiKey, loginToken, listing, http.replies, k0, 1, n);
          break;
        }
        n := n + 1;
        startPage := startPage + WINDOW_OFFSET + 1;
      }
      return Ok(items);
    }

    /** One window: post its request and apply the listing's stop rules to
        the page that comes back. */
    method ReadWindow(listing: Listing, startPage: int) returns (page: Result<Step, FetchError>)
      modifies http
      ensures http.log == old(http.log) + [WindowRequest(apiKey, loginToken, listing, startPage)]
      ensures page == WindowPageAt(listing, http.replies, |old(http.log)|)
    {
      var resp := http.Post(WindowRequest(apiKey, loginToken, listing, startPage));
      WindowPageAtReply(listing, http.replies, |old(http.log)|);
      var reply := InterpretFetch(resp);
      if reply.Err? {
        return Err(reply.error);
      }
      return Ok(PageStep(listing, reply.value));
    }

    /** `fetch_inbox`: gather every inbox page, following the cursors. */
    method FetchInbox() returns (r: Result<seq<Json>, FetchError>)
      modifies http
      ensures var w := InboxWalk(apiKey, loginToken, http.replies, |old(http.log)|, None);
        r == w.result && http.log == old(http.log) + w.sent
    {
      ghost var k0 := |http.log|;
      ghost var n: nat := 0;
      var allConversations: seq<Json> := [];
      var nextCursor: Option<string> := None;
      while true
        invariant |http.log| == k0 + n
        invariant http.log == old(http.log) + InboxRequests(apiKey, loginToken, http.replies, k0, None, n)
        invariant forall j :: k0 <= j < k0 + n ==> HasNextPage(http.replies, j)
        invariant nextCursor == if n == 0 then None else CursorAfter(http.replies, k0 + n - 1)
        invariant allConversations == Gathered(http.replies, k0, n)
        decreases |http.replies| - |http.log|
      {
        var inbox := ReadInboxPage(nextCursor);
        assert http.log == old(http.log) + InboxRequests(apiKey, loginToken, http.replies, k0, None, n + 1);
        if inbox.Err? {
          InboxWalkDetermined(apiKey, loginToken, http.replies, k0, None, n);
          return Err(inbox.error);
        }
        allConversations := allConversations + inbox.value.conversations;
        if inbox.value.nextCursor.None? {
          InboxWalkDetermined(apiKey, loginToken, http.replies, k0, None, n);
          break;
        }
        n := n + 1;
        nextCursor := inbox.value.nextCursor;
      }
      return Ok(allConversations);
    }

    /** One inbox page: post the request with the cursor, if any, and read
        the `data` of the reply as `InboxData`. */
    method ReadInboxPage(cursor: Option<string>) returns (page: Result<InboxData, FetchError>)
      modifies http
      ensures http.log == old(http.log) + [InboxRequest(apiKey, loginToken, cursor)]
      ensures page == InboxPageAt(http.replies, |old(http.log)|)
    {
      var resp := http.Post(InboxRequest(apiKey, loginToken, cursor));
      InboxPageAtReply(http.replies, |old(http.log)|);
      var reply := InterpretFetch(resp);
      if reply.Err? {
        return Err(reply.error);
      }
      var inbox := DecodeInboxData(reply.value);
      if inbox.None? {
        return Err(FetchError.Request(InvalidJson));
      }
      return Ok(inbox.value);
    }

    /** `find_conversation`: walk the inbox until a record's
        `conversation_id` contains `id`, and return that id at once. */
    method FindConversation(id: string) returns (r: Result<Option<string>, FetchError>)
      modifies http
      ensures var w := FindWalk(apiKey, loginToken, id, http.replies, |old(http.log)|, None);
        r == w.result && http.log == old(http.log) + w.sent
    {
      ghost var k0 := |http.log|;
      ghost var sent: seq<Request> := [];
      var nextCursor: Option<string> := None;
      while true
        invariant http.log == old(http.log) + sent
        invariant var whole := FindWalk(apiKey, loginToken, id, http.replies, k0, None);
          var rest := FindWalk(apiKey, loginToken, id, http.replies, |http.log|, nextCursor);
          whole.result == rest.result && whole.sent == sent + rest.sent
        decreases |http.replies| - |http.log|
      {
        ghost var k := |http.log|;
        ghost var before := sent;
        ghost var req := InboxRequest(apiKey, loginToken, nextCursor);
        FindWalkUnfold(apiKey, loginToken, id, http.replies, k, nextCursor);
        var inbox := ReadInboxPage(nextCursor);
        sent := sent + [req];
        if inbox.Err? {
          return Err(inbox.error);
        }
        var found := FirstMatchIn(inbox.value.conversations, id);
        if found.Some? {
          return Ok(found);
        }
        if inbox.value.nextCursor.None? {
          return Ok(None);
        }
        nextCursor := inbox.value.nextCursor;
        ghost var rest := FindWalk(apiKey, loginToken, id, http.replies, k + 1, nextCursor);
        assert (before + [req]) + rest.sent == before + ([req] + rest.sent);
      }
    }
  }

  /** The scan of one inbox page inside `find_conversation`: the id of the
      first record whose `conversation_id` is a string containing `id`. */
  method FirstMatchIn(conversations: seq<Json>, id: string) returns (found: Option<string>)
    ensures found == FirstMatch(conversations, id)
  {
    var i := 0;
    while i < |conversations|
      invariant 0 <= i <= |conversations|
      invariant FirstMatch(conversations, id) == FirstMatch(conversations[i..], id)
    {
      var conversationId := AsStr(Get(conversations[i], "conversation_id"));
      if conversationId.Some? && Contains(conversationId.value, id) {
        assert IsMatch(conversations[i..][0], id);
        return conversationId;
      }
      assert conversations[i..][1..] == conversations[i + 1..];
      i := i + 1;
    }
    return None;
  }
}
