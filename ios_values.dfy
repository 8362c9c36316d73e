/** The iOS plugin's value conversions (CapacitorSupabasePlugin.swift
    `sessionToDict`, `userToDict`, `authResultToDict`): the supabase-swift
    session and user models flattened into bridge dictionaries. */
module IosValues {
  import opened Bridge

  /** supabase-swift `User`. The id is kept as its `uuidString`, dates as
      their ISO 8601 text; each metadata dictionary as the object its JSON
      encoding reads back as (`None` when that fails, since the plugin then
      leaves the key out). */
  datatype User = User(
    id: string,
    email: Option<string>,
    phone: Option<string>,
    createdAt: string,
    lastSignInAt: Option<string>,
    userMetadata: Option<Fields>,
    appMetadata: Option<Fields>)

  /** supabase-swift `Session`: times are `TimeInterval`s and the user is
      always present. */
  datatype Session = Session(
    accessToken: string,
    refreshToken: string,
    tokenType: string,
    expiresIn: Double,
    expiresAt: Double,
    user: User)

  const SessionKeys: set<string> := {"accessToken", "refreshToken", "tokenType", "expiresIn", "expiresAt", "user"}

  /** Every key `userToDict` may write. */
  const UserKeyNames: set<string> := {"id", "createdAt", "email", "phone", "lastSignInAt", "userMetadata", "appMetadata"}

  /** The dictionary `userToDict` builds for `u`: `id` and `createdAt`
      always, every other key exactly when the user has that field, holding
      that field's value. */
  function UserDict(u: User): (r: Fields)
    ensures r.Keys <= UserKeyNames
    ensures "id" in r && r["id"] == JsString(u.id)
    ensures "createdAt" in r && r["createdAt"] == JsString(u.createdAt)
    ensures "email" in r <==> u.email.Some?
    ensures "phone" in r <==> u.phone.Some?
    ensures "lastSignInAt" in r <==> u.lastSignInAt.Some?
    ensures "userMetadata" in r <==> u.userMetadata.Some?
    ensures "appMetadata" in r <==> u.appMetadata.Some?
    ensures u.email.Some? ==> r["email"] == JsString(u.email.value)
    ensures u.phone.Some? ==> r["phone"] == JsString(u.phone.value)
    ensures u.userMetadata.Some? ==> r["userMetadata"] == JsObject(u.userMetadata.value)
    ensures u.appMetadata.Some? ==> r["appMetadata"] == JsObject(u.appMetadata.value)
  {
    var m0 := map["id" := JsString(u.id), "createdAt" := JsString(u.createdAt)];
    var m1 := if u.email.Some? then m0["email" := JsString(u.email.value)] else m0;
    var m2 := if u.phone.Some? then m1["phone" := JsString(u.phone.value)] else m1;
    var m3 := if u.lastSignInAt.Some? then m2["lastSignInAt" := JsString(u.lastSignInAt.value)] else m2;
    var m4 := if u.userMetadata.Some? then m3["userMetadata" := JsObject(u.userMetadata.value)] else m3;
    if u.appMetadata.Some? then m4["appMetadata" := JsObject(u.appMetadata.value)] else m4
  }

  /** `userToDict`: starts from the two fixed keys and adds the others one
      assignment at a time. */
  method UserToDict(u: User) returns (dict: Fields)
    ensures dict == UserDict(u)
  {
    dict := map["id" := JsString(u.id), "createdAt" := JsString(u.createdAt)];
    if u.email.Some? { dict := dict["email" := JsString(u.email.value)]; }
    if u.phone.Some? { dict := dict["phone" := JsString(u.phone.value)]; }
    if u.lastSignInAt.Some? { dict := dict["lastSignInAt" := JsString(u.lastSignInAt.value)]; }
    if u.userMetadata.Some? { dict := dict["userMetadata" := JsObject(u.userMetadata.value)]; }
    if u.appMetadata.Some? { dict := dict["appMetadata" := JsObject(u.appMetadata.value)]; }
  }

  /** `sessionToDict`: every key always present, the user nested as its own
      dictionary. */
  function SessionDict(s: Session): (r: Fields)
    ensures r.Keys == SessionKeys
    ensures r["accessToken"] == JsString(s.accessToken) && r["refreshToken"] == JsString(s.refreshToken)
    ensures r["user"] == JsObject(UserDict(s.user))
  {
    map[
      "accessToken" := JsString(s.accessToken),
      "refreshToken" := JsString(s.refreshToken),
      "tokenType" := JsString(s.tokenType),
      "expiresIn" := JsNumber(DoubleNumber(s.expiresIn)),
      "expiresAt" := JsNumber(DoubleNumber(s.expiresAt)),
      "user" := JsObject(UserDict(s.user))]
  }

  /** What a bridge caller reads back from a session dictionary: the token
      pair and the user's id. */
  function SessionIdentity(d: Fields): Option<(string, string, string)> {
    if && "accessToken" in d && d["accessToken"].JsString?
       && "refreshToken" in d && d["refreshToken"].JsString?
       && "user" in d && d["user"].JsObject?
       && "id" in d["user"].fields && d["user"].fields["id"].JsString?
    then Some((d["accessToken"].s, d["refreshToken"].s, d["user"].fields["id"].s))
    else None
  }

  /** Every session dictionary carries its token pair and its user's id. */
  lemma SessionIdentityRoundTrip(s: Session)
    ensures SessionIdentity(SessionDict(s)) == Some((s.accessToken, s.refreshToken, s.user.id))
  {
  }

  /** The `{session, user}` dictionary `authResultToDict` builds. */
  function AuthResult(session: Option<Session>, user: Option<User>): (r: Fields)
    ensures r.Keys == {"session", "user"}
    ensures r["session"] == JsNull <==> session.None?
    ensures r["user"] == JsNull <==> user.None?
    ensures session.Some? ==> r["session"] == JsObject(SessionDict(session.value))
    ensures user.Some? ==> r["user"] == JsObject(UserDict(user.value))
  {
    map[
      "session" := if session.Some? then JsObject(SessionDict(session.value)) else JsNull,
      "user" := if user.Some? then JsObject(UserDict(user.value)) else JsNull]
  }

  /** `authResultToDict`: fills an empty dictionary, null for what is
      missing. */
  method AuthResultToDict(session: Option<Session>, user: Option<User>) returns (result: Fields)
    ensures result == AuthResult(session, user)
  {
    result := map[];
    if session.Some? {
      result := result["session" := JsObject(SessionDict(session.value))];
    } else {
      result := result["session" := JsNull];
    }
    if user.Some? {
      var u := UserToDict(user.value);
      result := result["user" := JsObject(u)];
    } else {
      result := result["user" := JsNull];
    }
  }

  /** A sign-in that returns a session reports that session's own user. */
  lemma SessionUserReported(s: Session)
    ensures AuthResult(Some(s), Some(s.user))["user"] == SessionDict(s)["user"]
  {
  }
}
