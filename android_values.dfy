/** The Android plugin's value conversions (CapacitorSupabasePlugin.kt):
    the vendor session and user models flattened into bridge objects, and
    bridge objects converted into kotlinx.serialization JSON for the SDK. */
module AndroidValues {
  import opened Bridge

  /** supabase-kt `UserInfo`. Timestamps are kept as the text `toString()`
      gives them; metadata as the object its JSON serialisation parses to
      (`None` when absent, and also when that serialisation fails, since the
      plugin then leaves the key out). */
  datatype UserInfo = UserInfo(
    id: string,
    email: Option<string>,
    phone: Option<string>,
    createdAt: Option<string>,
    lastSignInAt: Option<string>,
    userMetadata: Option<Fields>,
    appMetadata: Option<Fields>)

  /** supabase-kt `UserSession`; `expiresAt` as epoch seconds. */
  datatype UserSession = UserSession(
    accessToken: string,
    refreshToken: string,
    tokenType: string,
    expiresIn: int,
    expiresAt: Option<int>,
    user: Option<UserInfo>)

  const SessionBaseKeys: set<string> := {"accessToken", "refreshToken", "tokenType", "expiresIn", "expiresAt"}

  /** Every key `userToJSObject` may write. */
  const UserKeyNames: set<string> := {"id", "email", "phone", "createdAt", "lastSignInAt", "userMetadata", "appMetadata"}

  /** The object `userToJSObject` builds for `u`: `id` always, every other
      key exactly when the user has that field, holding that field's value. */
  function UserFields(u: UserInfo): (r: Fields)
    ensures r.Keys <= UserKeyNames
    ensures "id" in r && r["id"] == JsString(u.id)
    ensures "email" in r <==> u.email.Some?
    ensures "phone" in r <==> u.phone.Some?
    ensures "createdAt" in r <==> u.createdAt.Some?
    ensures "lastSignInAt" in r <==> u.lastSignInAt.Some?
    ensures "userMetadata" in r <==> u.userMetadata.Some?
    ensures "appMetadata" in r <==> u.appMetadata.Some?
    ensures u.email.Some? ==> r["email"] == JsString(u.email.value)
    ensures u.phone.Some? ==> r["phone"] == JsString(u.phone.value)
    ensures u.userMetadata.Some? ==> r["userMetadata"] == JsObject(u.userMetadata.value)
    ensures u.appMetadata.Some? ==> r["appMetadata"] == JsObject(u.appMetadata.value)
  {
    var m0 := map["id" := JsString(u.id)];
    var m1 := if u.email.Some? then m0["email" := JsString(u.email.value)] else m0;
    var m2 := if u.phone.Some? then m1["phone" := JsString(u.phone.value)] else m1;
    var m3 := if u.createdAt.Some? then m2["createdAt" := JsString(u.createdAt.value)] else m2;
    var m4 := if u.lastSignInAt.Some? then m3["lastSignInAt" := JsString(u.lastSignInAt.value)] else m3;
    var m5 := if u.userMetadata.Some? then m4["userMetadata" := JsObject(u.userMetadata.value)] else m4;
    if u.appMetadata.Some? then m5["appMetadata" := JsObject(u.appMetadata.value)] else m5
  }

  /** The object `sessionToJSObject` builds for `s`: both tokens always, a
      missing expiry as 0, the user only when the session has one. */
  function SessionFields(s: UserSession): (r: Fields)
    ensures r.Keys == SessionBaseKeys + (if s.user.Some? then {"user"} else {})
    ensures r["accessToken"] == JsString(s.accessToken) && r["refreshToken"] == JsString(s.refreshToken)
    ensures r["expiresAt"] == JsNumber(IntNumber(if s.expiresAt.Some? then s.expiresAt.value else 0))
  {
    var base := map[
      "accessToken" := JsString(s.accessToken),
      "refreshToken" := JsString(s.refreshToken),
      "tokenType" := JsString(s.tokenType),
      "expiresIn" := JsNumber(IntNumber(s.expiresIn)),
      "expiresAt" := JsNumber(IntNumber(if s.expiresAt.Some? then s.expiresAt.value else 0))];
    if s.user.Some? then base["user" := JsObject(UserFields(s.user.value))] else base
  }

  /** The session object, or the JSON null when there is no session. */
  function SessionOrNull(s: Option<UserSession>): JsValue {
    if s.Some? then JsObject(SessionFields(s.value)) else JsNull
  }

  /** The user object, or the JSON null when there is no user. */
  function UserOrNull(u: Option<UserInfo>): JsValue {
    if u.Some? then JsObject(UserFields(u.value)) else JsNull
  }

  /** `userToJSObject`: fills a fresh object one `put` at a time. */
  method UserToJSObject(u: UserInfo) returns (obj: Fields)
    ensures obj == UserFields(u)
  {
    obj := map[];
    obj := obj["id" := JsString(u.id)];
    if u.email.Some? { obj := obj["email" := JsString(u.email.value)]; }
    if u.phone.Some? { obj := obj["phone" := JsString(u.phone.value)]; }
    if u.createdAt.Some? { obj := obj["createdAt" := JsString(u.createdAt.value)]; }
    if u.lastSignInAt.Some? { obj := obj["lastSignInAt" := JsString(u.lastSignInAt.value)]; }
    if u.userMetadata.Some? { obj := obj["userMetadata" := JsObject(u.userMetadata.value)]; }
    if u.appMetadata.Some? { obj := obj["appMetadata" := JsObject(u.appMetadata.value)]; }
  }

  /** `sessionToJSObject`: fills a fresh object one `put` at a time. */
  method SessionToJSObject(s: UserSession) returns (obj: Fields)
    ensures obj == SessionFields(s)
  {
    obj := map[];
    obj := obj["accessToken" := JsString(s.accessToken)];
    obj := obj["refreshToken" := JsString(s.refreshToken)];
    obj := obj["tokenType" := JsString(s.tokenType)];
    obj := obj["expiresIn" := JsNumber(IntNumber(s.expiresIn))];
    obj := obj["expiresAt" := JsNumber(IntNumber(if s.expiresAt.Some? then s.expiresAt.value else 0))];
    if s.user.Some? {
      var u := UserToJSObject(s.user.value);
      obj := obj["user" := JsObject(u)];
    }
  }

  /** The session-or-null value as the plugin computes it: convert the
      session when there is one. */
  method SessionOrNullToJS(s: Option<UserSession>) returns (v: JsValue)
    ensures v == SessionOrNull(s)
  {
    v := JsNull;
    if s.Some? {
      var obj := SessionToJSObject(s.value);
      v := JsObject(obj);
    }
  }

  /** The user-or-null value as the plugin computes it: convert the user
      when there is one. */
  method UserOrNullToJS(u: Option<UserInfo>) returns (v: JsValue)
    ensures v == UserOrNull(u)
  {
    v := JsNull;
    if u.Some? {
      var obj := UserToJSObject(u.value);
      v := JsObject(obj);
    }
  }

  /** What a bridge caller reads back from a session object: the token pair. */
  function TokensOf(obj: Fields): Option<(string, string)> {
    if "accessToken" in obj && "refreshToken" in obj
       && obj["accessToken"].JsString? && obj["refreshToken"].JsString?
    then Some((obj["accessToken"].s, obj["refreshToken"].s))
    else None
  }

  /** Every session object carries its own token pair, both tokens together. */
  lemma SessionTokensRoundTrip(s: UserSession)
    ensures TokensOf(SessionFields(s)) == Some((s.accessToken, s.refreshToken))
  {
  }

  // ----- bridge objects to kotlinx.serialization JSON (`jsObjectToJsonObject`)

  datatype JsonElement =
    | JsonNull
    | JsonString(s: string)
    | JsonNumber(n: Number)
    | JsonBoolean(b: bool)
    | JsonObject(fields: map<string, JsonElement>)

  /** One branch of the `when` in `jsObjectToJsonObject`: strings, numbers and
      booleans become JSON primitives, a nested object is converted
      recursively, null becomes JSON null, and anything else becomes the JSON
      string of its `toString()`. */
  function ToJsonElement(v: JsValue): JsonElement
    decreases v, 1
  {
    match v
    case JsString(s) => JsonString(s)
    case JsNumber(n) => JsonNumber(n)
    case JsBool(b) => JsonBoolean(b)
    case JsObject(m) => JsonObject(JsObjectToJsonObject(m))
    case JsNull => JsonNull
    case JsOther(text) => JsonString(text)
  }

  /** `jsObjectToJsonObject`: the same keys, each value converted. */
  function JsObjectToJsonObject(obj: Fields): (r: map<string, JsonElement>)
    ensures r.Keys == obj.Keys
    decreases JsObject(obj), 0
  {
    map k | k in obj :: ToJsonElement(obj[k])
  }

  /** Reading JSON back into the bridge model: the partner of the conversion. */
  function FromJsonElement(e: JsonElement): JsValue {
    match e
    case JsonNull => JsNull
    case JsonString(s) => JsString(s)
    case JsonNumber(n) => JsNumber(n)
    case JsonBoolean(b) => JsBool(b)
    case JsonObject(m) => JsObject(map k | k in m :: FromJsonElement(m[k]))
  }

  /** A bridge value holding only JSON kinds, at every depth. */
  predicate PlainJson(v: JsValue) {
    match v
    case JsOther(_) => false
    case JsObject(m) => forall k :: k in m ==> PlainJson(m[k])
    case _ => true
  }

  /** Converting a JSON-only value loses nothing: reading it back gives the
      value that was converted. */
  lemma {:induction false} ToJsonElementRoundTrip(v: JsValue)
    requires PlainJson(v)
    ensures FromJsonElement(ToJsonElement(v)) == v
  {
    match v
    case JsObject(m) =>
      var c := JsObjectToJsonObject(m);
      forall k | k in m ensures FromJsonElement(c[k]) == m[k] {
        ToJsonElementRoundTrip(m[k]);
      }
      assert (map k | k in c :: FromJsonElement(c[k])) == m;
    case _ =>
  }

  /** Any other value is not lost silently: it reaches the SDK as the JSON
      string of its text, and only as that. */
  lemma {:induction false} OtherBecomesString(obj: Fields, k: string)
    requires k in obj && obj[k].JsOther?
    ensures k in JsObjectToJsonObject(obj)
    ensures JsObjectToJsonObject(obj)[k] == JsonString(obj[k].text)
  {
  }

  /** The conversion of an object is the object case of the element
      conversion, so nested objects are converted the same way at every depth. */
  lemma {:induction false} NestedObjectConverted(obj: Fields, k: string)
    requires k in obj && obj[k].JsObject?
    ensures JsObjectToJsonObject(obj)[k] == JsonObject(JsObjectToJsonObject(obj[k].fields))
  {
  }
}
