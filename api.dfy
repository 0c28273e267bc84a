/** The wire envelopes of the LinkUp API and their decoding rules, as the
    derived serde decoders of src/client/api.rs apply them to a parsed JSON
    body, together with the matching encoders (the derived `Serialize`). */
module Api {
  import opened Wrappers
  import opened JsonValue

  /** Base URL every endpoint hangs off. */
  const V1_API_URL: string := "https://api.linkupapi.com/v1"

  type u32 = n: int | 0 <= n <= U32_MAX

  /** The payload of a successful login, told apart only by its fields. */
  datatype LoginResponseType =
    | WithToken(loginToken: string, message: string)
    | NeedCode(email: string, message: string)

  datatype LoginResponse =
    | Success(success: LoginResponseType)
    | Error(message: string)

  /** `Success.info` is the optional `message` member of a success body
      (Dafny gives same-named fields of one datatype a single type). */
  datatype VerifyResponse =
    | Success(loginToken: string, info: Option<string>)
    | Error(message: string)

  datatype FetchResponse =
    | Success(data: Json)
    | Error(message: string)

  datatype InboxData = InboxData(conversations: seq<Json>, totalResults: u32, nextCursor: Option<string>)

  // ----- field access under serde's rules -----

  /** The `status` tag, when the body is an object whose `status` is a string. */
  function Tag(j: Json): Option<string>
  {
    AsStr(Get(j, "status"))
  }

  /** A required `String` field: present and a JSON string. */
  function StringField(j: Json, key: string): Option<string>
  {
    AsStr(Get(j, key))
  }

  /** An `Option<String>` field: a missing member and `null` both give
      `Some(None)`; a string gives its text; anything else fails. */
  function OptionalStringField(j: Json, key: string): (r: Option<Option<string>>)
    ensures r == Some(None) <==> Get(j, key) == Null
    ensures r.Some? && r.value.Some? <==> Get(j, key).Str?
    ensures r.Some? && r.value.Some? ==> r.value.value == Get(j, key).s
  {
    match Get(j, key)
    case Null => Some(None)
    case Str(s) => Some(Some(s))
    case _ => None
  }

  // ----- decoders -----

  /** The untagged login payload: `WithToken` is tried first, then
      `NeedCode`; a payload matching neither fails to decode. */
  function DecodeLoginPayload(j: Json): (r: Option<LoginResponseType>)
    ensures r.Some? <==>
      StringField(j, "message").Some? && (StringField(j, "login_token").Some? || StringField(j, "email").Some?)
    ensures r.Some? ==> Get(j, "message") == Str(r.value.message)
    ensures r.Some? && r.value.WithToken? <==>
      StringField(j, "login_token").Some? && StringField(j, "message").Some?
    ensures r.Some? && r.value.WithToken? ==> Get(j, "login_token") == Str(r.value.loginToken)
    ensures r.Some? && r.value.NeedCode? ==> Get(j, "email") == Str(r.value.email)
  {
    var token, email, message := StringField(j, "login_token"), StringField(j, "email"), StringField(j, "message");
    if token.Some? && message.Some? then Some(WithToken(token.value, message.value))
    else if email.Some? && message.Some? then Some(NeedCode(email.value, message.value))
    else None
  }

  /** `LoginResponse`, internally tagged by `status`; the success payload is
      flattened into the same object. */
  function DecodeLogin(j: Json): (r: Option<LoginResponse>)
    ensures Tag(j) != Some("success") && Tag(j) != Some("error") ==> r.None?
    ensures r.Some? && r.value.Success? <==> Tag(j) == Some("success") && DecodeLoginPayload(j).Some?
    ensures r.Some? && r.value.Success? ==> Some(r.value.success) == DecodeLoginPayload(j)
    ensures r.Some? && r.value.Error? <==> Tag(j) == Some("error") && StringField(j, "message").Some?
    ensures r.Some? && r.value.Error? ==> Get(j, "message") == Str(r.value.message)
  {
    var tag := Tag(j);
    if tag == Some("success") then
      match DecodeLoginPayload(j)
      case Some(p) => Some(LoginResponse.Success(p))
      case None => None
    else if tag == Some("error") then
      match StringField(j, "message")
      case Some(m) => Some(LoginResponse.Error(m))
      case None => None
    else None
  }

  /** `VerifyResponse`: success needs `login_token`, its `message` is optional. */
  function DecodeVerify(j: Json): (r: Option<VerifyResponse>)
    ensures Tag(j) != Some("success") && Tag(j) != Some("error") ==> r.None?
    ensures r.Some? && r.value.Success? <==>
      Tag(j) == Some("success") && StringField(j, "login_token").Some? && OptionalStringField(j, "message").Some?
    ensures r.Some? && r.value.Success? ==>
      Get(j, "login_token") == Str(r.value.loginToken) && Some(r.value.info) == OptionalStringField(j, "message")
    ensures r.Some? && r.value.Error? <==> Tag(j) == Some("error") && StringField(j, "message").Some?
    ensures r.Some? && r.value.Error? ==> Get(j, "message") == Str(r.value.message)
  {
    var tag := Tag(j);
    if tag == Some("success") then
      match (StringField(j, "login_token"), OptionalStringField(j, "message"))
      case (Some(t), Some(m)) => Some(VerifyResponse.Success(t, m))
      case _ => None
    else if tag == Some("error") then
      match StringField(j, "message")
      case Some(m) => Some(VerifyResponse.Error(m))
      case None => None
    else None
  }

  /** `FetchResponse`: success needs a `data` member, of any JSON type, which
      is passed through untouched. */
  function DecodeFetch(j: Json): (r: Option<FetchResponse>)
    ensures Tag(j) != Some("success") && Tag(j) != Some("error") ==> r.None?
    ensures r.Some? && r.value.Success? <==> Tag(j) == Some("success") && j.Obj? && "data" in j.fields
    ensures r.Some? && r.value.Success? ==> r.value.data == j.fields["data"]
    ensures r.Some? && r.value.Error? <==> Tag(j) == Some("error") && StringField(j, "message").Some?
    ensures r.Some? && r.value.Error? ==> Get(j, "message") == Str(r.value.message)
  {
    var tag := Tag(j);
    if tag == Some("success") then
      if j.Obj? && "data" in j.fields then Some(FetchResponse.Success(j.fields["data"])) else None
    else if tag == Some("error") then
      match StringField(j, "message")
      case Some(m) => Some(FetchResponse.Error(m))
      case None => None
    else None
  }

  /** `InboxData`: `conversations` must be an array, `total_results` an
      integer that fits in a u32, `next_cursor` a string, `null` or absent. */
  function DecodeInboxData(j: Json): (r: Option<InboxData>)
    ensures r.Some? <==>
      Get(j, "conversations").Arr? && Get(j, "total_results").Int? && 0 <= Get(j, "total_results").i <= U32_MAX
      && OptionalStringField(j, "next_cursor").Some?
    ensures r.Some? ==> Get(j, "conversations") == Arr(r.value.conversations)
    ensures r.Some? ==> Get(j, "total_results") == Int(r.value.totalResults)
    ensures r.Some? ==> (r.value.nextCursor.None? <==> Get(j, "next_cursor") == Null)
    ensures r.Some? && r.value.nextCursor.Some? ==> Get(j, "next_cursor") == Str(r.value.nextCursor.value)
  {
    var convs, total, cursor := Get(j, "conversations"), Get(j, "total_results"), OptionalStringField(j, "next_cursor");
    if convs.Arr? && total.Int? && 0 <= total.i <= U32_MAX && cursor.Some? then
      Some(InboxData(convs.items, total.i, cursor.value))
    else None
  }

  // ----- encoders (the derived Serialize) and their round trips -----

  function EncodeOptionalString(s: Option<string>): Json
  {
    match s
    case None => Null
    case Some(t) => Str(t)
  }

  function EncodeLogin(r: LoginResponse): (j: Json)
    ensures DecodeLogin(j) == Some(r)
  {
    match r
    case Success(WithToken(t, m)) =>
      Obj(map["status" := Str("success"), "login_token" := Str(t), "message" := Str(m)])
    case Success(NeedCode(e, m)) =>
      Obj(map["status" := Str("success"), "email" := Str(e), "message" := Str(m)])
    case Error(m) =>
      Obj(map["status" := Str("error"), "message" := Str(m)])
  }

  function EncodeVerify(r: VerifyResponse): (j: Json)
    ensures DecodeVerify(j) == Some(r)
  {
    match r
    case Success(t, m) =>
      Obj(map["status" := Str("success"), "login_token" := Str(t), "message" := EncodeOptionalString(m)])
    case Error(m) =>
      Obj(map["status" := Str("error"), "message" := Str(m)])
  }

  function EncodeFetch(r: FetchResponse): (j: Json)
    ensures DecodeFetch(j) == Some(r)
  {
    match r
    case Success(d) => Obj(map["status" := Str("success"), "data" := d])
    case Error(m) => Obj(map["status" := Str("error"), "message" := Str(m)])
  }

  function EncodeInboxData(d: InboxData): (j: Json)
    ensures DecodeInboxData(j) == Some(d)
  {
    Obj(map[
      "conversations" := Arr(d.conversations),
      "total_results" := Int(d.totalResults),
      "next_cursor" := EncodeOptionalString(d.nextCursor)])
  }

  /** A login payload carrying both a token and an email is `WithToken`,
      because that alternative is tried first. */
  lemma TokenWinsOverEmail(j: Json)
    requires StringField(j, "login_token").Some? && StringField(j, "email").Some?
    requires StringField(j, "message").Some?
    ensures DecodeLoginPayload(j) == Some(WithToken(StringField(j, "login_token").value, StringField(j, "message").value))
  {
  }

  /** Members the envelope does not declare are ignored by every decoder. */
  lemma UnknownMembersIgnored(fields: map<string, Json>, key: string, v: Json)
    requires key !in {"status", "message", "data", "login_token", "email", "conversations", "total_results", "next_cursor"}
    ensures DecodeLogin(Obj(fields[key := v])) == DecodeLogin(Obj(fields))
    ensures DecodeVerify(Obj(fields[key := v])) == DecodeVerify(Obj(fields))
    ensures DecodeFetch(Obj(fields[key := v])) == DecodeFetch(Obj(fields))
    ensures DecodeInboxData(Obj(fields[key := v])) == DecodeInboxData(Obj(fields))
  {
  }
}
