/** The iOS plugin object (CapacitorSupabasePlugin.swift): one optional
    client, the auth-state task it started, and the bridge calls. Each call
    checks the client, then its inputs in a fixed order (mostly only for
    presence: an empty string passes), then asks the SDK one thing and
    shapes the outcome. The SDK's answer is a parameter; the out-parameter
    `sent` says what, if anything, the call asked of the SDK. */
module IosPlugin {
  import opened Bridge
  import opened IosValues
  import opened IosLookups
  import opened IosQuery

  const PluginVersion: string := "8.0.5"

  /** supabase-swift `AuthResponse` as the plugin reads it: the session, if
      the flow produced one, and the user. */
  datatype AuthResponse = AuthResponse(session: Option<Session>, user: User)

  /** What one bridge call asks of the vendor SDK. */
  datatype Request =
    | SignIn(email: string, password: string)
      /** `signUp(email:password:data:)`; `data` is the call's object after a
          JSON round trip into `[String: AnyJSON]`. */
    | SignUp(email: string, password: string, data: Option<Fields>)
    | SignInAnonymously
      /** `redirectTo` is the text of the parsed redirect URL, `None` when
          there is none or it does not parse. */
    | GetOAuthSignInUrl(provider: Provider, scopes: Option<string>, redirectTo: Option<string>)
    | SendEmailOtp(email: string)
    | SendPhoneOtp(phone: string)
    | VerifyEmailOtp(email: string, token: string, emailType: EmailOTPType)
    | VerifyPhoneOtp(phone: string, token: string, phoneType: MobileOTPType)
    | SignOut
    | CurrentSession
    | RefreshSession
    | CurrentUser
    | SetSession(accessToken: string, refreshToken: string)
    | Select(query: SelectQuery)
      /** `insert(values).select().single()`: the new row comes back. */
    | Insert(table: string, values: Fields)
      /** `update(values)`, the filters, then `select()`. */
    | Update(table: string, values: Fields, filters: seq<Eq>)
      /** `delete()`, the filters, then `select()`. */
    | Delete(table: string, filters: seq<Eq>)

  /** A `Task` iterating the auth changes of `source`; it stops forwarding
      once `cancelled`. */
  datatype AuthTask = AuthTask(source: Option<Client>, cancelled: bool)

  class CapacitorSupabasePlugin {
    var supabaseClient: Option<Client>
    /** `authStateTask`, as an index into `tasks`. */
    var authStateTask: Option<nat>
    /** Every auth task started so far, in order. */
    var tasks: seq<AuthTask>

    /** Every task but the one `authStateTask` holds has been cancelled. */
    ghost predicate Valid()
      reads this
    {
      && (authStateTask.Some? ==> authStateTask.value < |tasks|)
      && (forall j :: 0 <= j < |tasks| && !tasks[j].cancelled ==> authStateTask == Some(j))
    }

    ghost function LiveTasks(): set<nat>
      reads this
    {
      set j | 0 <= j < |tasks| && !tasks[j].cancelled
    }

    lemma AtMostOneLiveTask()
      requires Valid()
      ensures authStateTask.None? ==> LiveTasks() == {}
      ensures authStateTask.Some? ==> LiveTasks() <= {authStateTask.value}
    {
    }

    constructor ()
      ensures Valid()
      ensures supabaseClient.None? && authStateTask.None? && tasks == []
    {
      supabaseClient := None;
      authStateTask := None;
      tasks := [];
    }

    /** `deinit`: cancel the auth task, leaving no task live. */
    method Deinit()
      requires Valid()
      modifies this
      ensures Valid()
      ensures supabaseClient == old(supabaseClient) && authStateTask == old(authStateTask)
      ensures LiveTasks() == {}
      ensures |tasks| == |old(tasks)|
      ensures forall j :: 0 <= j < |tasks| ==> tasks[j] == old(tasks[j]).(cancelled := true)
    {
      if authStateTask.Some? {
        tasks := tasks[authStateTask.value := tasks[authStateTask.value].(cancelled := true)];
      }
    }

    /** `setupAuthStateListener`: cancel the previous task, then start a new
        one on the current client. */
    method SetupAuthStateListener()
      requires Valid()
      modifies this
      ensures Valid()
      ensures supabaseClient == old(supabaseClient)
      ensures |tasks| == |old(tasks)| + 1 && authStateTask == Some(|old(tasks)|)
      ensures tasks[|old(tasks)|] == AuthTask(supabaseClient, false)
      ensures forall j :: 0 <= j < |old(tasks)| ==> tasks[j] == old(tasks[j]).(cancelled := true)
      ensures LiveTasks() == {|old(tasks)|}
    {
      if authStateTask.Some? {
        tasks := tasks[authStateTask.value := tasks[authStateTask.value].(cancelled := true)];
      }
      tasks := tasks + [AuthTask(supabaseClient, false)];
      authStateTask := Some(|tasks| - 1);
    }

    /** `initialize`: both values must be present and `urlParses` (whether
        `URL(string:)` accepts the URL) must hold; then the client is
        replaced and the listener restarted. An empty key is accepted. */
    method Initialize(supabaseUrl: Option<string>, supabaseKey: Option<string>, urlParses: bool)
      returns (reply: Reply)
      requires Valid()
      modifies this
      ensures Valid()
      ensures supabaseUrl.None? || supabaseKey.None? || !urlParses ==>
        reply == Rejected("Missing or invalid supabaseUrl or supabaseKey") && unchanged(this)
      ensures supabaseUrl.Some? && supabaseKey.Some? && urlParses ==>
        && reply == Resolved(map[])
        && supabaseClient == Some(Client(supabaseUrl.value, supabaseKey.value))
        && |tasks| == |old(tasks)| + 1
        && authStateTask == Some(|old(tasks)|)
        && tasks[|old(tasks)|] == AuthTask(supabaseClient, false)
        && (forall j :: 0 <= j < |old(tasks)| ==> tasks[j] == old(tasks[j]).(cancelled := true))
        && LiveTasks() == {|old(tasks)|}
    {
      if supabaseUrl.None? || supabaseKey.None? || !urlParses {
        return Rejected("Missing or invalid supabaseUrl or supabaseKey");
      }
      supabaseClient := Some(Client(supabaseUrl.value, supabaseKey.value));
      SetupAuthStateListener();
      reply := Resolved(map[]);
    }

    /** `signInWithPassword`: the signed-in session and its own user. */
    method SignInWithPassword(email: Option<string>, password: Option<string>, sdk: Outcome<Session>)
      returns (reply: Reply, sent: Option<Request>)
      ensures supabaseClient.None? ==> RejectedBeforeSdk(reply, sent, NotInitialized)
      ensures supabaseClient.Some? && (email.None? || password.None?) ==>
        RejectedBeforeSdk(reply, sent, "Missing email or password")
      ensures sent.Some? <==> supabaseClient.Some? && email.Some? && password.Some?
      ensures sent.Some? ==> sent.value == SignIn(email.value, password.value)
      ensures sent.Some? ==> RejectsOnFailure(reply, sdk, "Sign in failed: ")
      ensures sent.Some? && sdk.Ok? ==> reply.result == AuthResult(Some(sdk.payload), Some(sdk.payload.user))
    {
      if supabaseClient.None? {
        return Rejected(NotInitialized), None;
      }
      if email.None? || password.None? {
        return Rejected("Missing email or password"), None;
      }
      sent := Some(SignIn(email.value, password.value));
      reply := SessionReply(sdk, "Sign in failed: ");
    }

    /** `signUp`: the optional `data` object goes to the SDK as well. */
    method SignUp(email: Option<string>, password: Option<string>, data: Option<Fields>, sdk: Outcome<AuthResponse>)
      returns (reply: Reply, sent: Option<Request>)
      ensures supabaseClient.None? ==> RejectedBeforeSdk(reply, sent, NotInitialized)
      ensures supabaseClient.Some? && (email.None? || password.None?) ==>
        RejectedBeforeSdk(reply, sent, "Missing email or password")
      ensures sent.Some? <==> supabaseClient.Some? && email.Some? && password.Some?
      ensures sent.Some? ==> sent.value == Request.SignUp(email.value, password.value, data)
      ensures sent.Some? ==> RejectsOnFailure(reply, sdk, "Sign up failed: ")
      ensures sent.Some? && sdk.Ok? ==> reply.result == AuthResult(sdk.payload.session, Some(sdk.payload.user))
    {
      if supabaseClient.None? {
        return Rejected(NotInitialized), None;
      }
      if email.None? || password.None? {
        return Rejected("Missing email or password"), None;
      }
      sent := Some(Request.SignUp(email.value, password.value, data));
      reply := ResponseReply(sdk, "Sign up failed: ");
    }

    /** `signInAnonymously`: no input beyond the client. */
    method SignInAnonymously(sdk: Outcome<Session>) returns (reply: Reply, sent: Option<Request>)
      ensures supabaseClient.None? ==> RejectedBeforeSdk(reply, sent, NotInitialized)
      ensures supabaseClient.Some? ==> sent == Some(Request.SignInAnonymously)
      ensures sent.Some? ==> RejectsOnFailure(reply, sdk, "Anonymous sign in failed: ")
      ensures sent.Some? && sdk.Ok? ==> reply.result == AuthResult(Some(sdk.payload), Some(sdk.payload.user))
    {
      if supabaseClient.None? {
        return Rejected(NotInitialized), None;
      }
      sent := Some(Request.SignInAnonymously);
      reply := SessionReply(sdk, "Anonymous sign in failed: ");
    }

    /** `signInWithOAuth`: a missing and an unknown provider get the same
        rejection, before any task starts. The redirect reaches the SDK only
        as a parsed URL: `redirectParses` says whether `URL(string:)` accepts
        the given text, and the empty text never parses. `sdk` covers
        fetching the URL and opening it. */
    method SignInWithOAuth(provider: Option<string>, redirectTo: Option<string>, redirectParses: bool, scopes: Option<string>, sdk: Outcome<()>)
      returns (reply: Reply, sent: Option<Request>)
      ensures supabaseClient.None? ==> RejectedBeforeSdk(reply, sent, NotInitialized)
      ensures supabaseClient.Some? && (provider.None? || OAuthProviderFromString(provider.value).None?) ==>
        RejectedBeforeSdk(reply, sent, "Missing or invalid provider")
      ensures sent.Some? <==> supabaseClient.Some? && provider.Some? && OAuthProviderFromString(provider.value).Some?
      ensures sent.Some? ==> sent.value.GetOAuthSignInUrl?
      ensures sent.Some? ==> sent.value.provider == OAuthProviderFromString(provider.value).value && sent.value.scopes == scopes
      ensures sent.Some? ==> (sent.value.redirectTo.Some? <==> redirectTo.Some? && redirectTo.value != "" && redirectParses)
      ensures sent.Some? && sent.value.redirectTo.Some? ==> sent.value.redirectTo == redirectTo
      ensures sent.Some? ==> RejectsOnFailure(reply, sdk, "OAuth sign in failed: ")
      ensures sent.Some? && sdk.Ok? ==> reply == Resolved(map[])
    {
      if supabaseClient.None? {
        return Rejected(NotInitialized), None;
      }
      if provider.None? || OAuthProviderFromString(provider.value).None? {
        return Rejected("Missing or invalid provider"), None;
      }
      var p := OAuthProviderFromString(provider.value).value;
      var url: Option<string> := None;
      if redirectTo.Some? && redirectTo.value != "" && redirectParses {
        url := redirectTo;
      }
      sent := Some(GetOAuthSignInUrl(p, scopes, url));
      reply := if sdk.Ok? then Resolved(map[]) else Rejected("OAuth sign in failed: " + sdk.message);
    }

    /** `signInWithOTP`: the email when one is given (even an empty one),
        else the phone. */
    method SignInWithOtp(email: Option<string>, phone: Option<string>, sdk: Outcome<()>)
      returns (reply: Reply, sent: Option<Request>)
      ensures supabaseClient.None? ==> RejectedBeforeSdk(reply, sent, NotInitialized)
      ensures supabaseClient.Some? && email.None? && phone.None? ==>
        RejectedBeforeSdk(reply, sent, "Either email or phone is required")
      ensures sent.Some? <==> supabaseClient.Some? && (email.Some? || phone.Some?)
      ensures sent.Some? && email.Some? ==> sent.value == SendEmailOtp(email.value)
      ensures sent.Some? && email.None? ==> sent.value == SendPhoneOtp(phone.value)
      ensures sent.Some? ==> RejectsOnFailure(reply, sdk, "OTP sign in failed: ")
      ensures sent.Some? && sdk.Ok? ==> reply == Resolved(map[])
    {
      if supabaseClient.None? {
        return Rejected(NotInitialized), None;
      }
      if email.None? && phone.None? {
        return Rejected("Either email or phone is required"), None;
      }
      if email.Some? {
        sent := Some(SendEmailOtp(email.value));
      } else {
        sent := Some(SendPhoneOtp(phone.value));
      }
      reply := if sdk.Ok? then Resolved(map[]) else Rejected("OTP sign in failed: " + sdk.message);
    }

    /** `verifyOtp`: token and type first, then an email or a phone; the
        email is preferred. The `Task` body's own "Either email or phone" branch
        cannot be reached once the guard has passed. */
    method VerifyOtp(email: Option<string>, phone: Option<string>, token: Option<string>, otpType: Option<string>, sdk: Outcome<AuthResponse>)
      returns (reply: Reply, sent: Option<Request>)
      ensures supabaseClient.None? ==> RejectedBeforeSdk(reply, sent, NotInitialized)
      ensures supabaseClient.Some? && (token.None? || otpType.None?) ==>
        RejectedBeforeSdk(reply, sent, "Missing token or type")
      ensures supabaseClient.Some? && token.Some? && otpType.Some? && email.None? && phone.None? ==>
        RejectedBeforeSdk(reply, sent, "Either email or phone is required")
      ensures sent.Some? <==> supabaseClient.Some? && token.Some? && otpType.Some? && (email.Some? || phone.Some?)
      ensures sent.Some? && email.Some? ==>
        sent.value == VerifyEmailOtp(email.value, token.value, EmailOtpTypeFromString(otpType.value))
      ensures sent.Some? && email.None? ==> sent.value == VerifyPhoneOtp(phone.value, token.value, Sms)
      ensures sent.Some? ==> RejectsOnFailure(reply, sdk, "OTP verification failed: ")
      ensures sent.Some? && sdk.Ok? ==> reply.result == AuthResult(sdk.payload.session, Some(sdk.payload.user))
    {
      if supabaseClient.None? {
        return Rejected(NotInitialized), None;
      }
      if token.None? || otpType.None? {
        return Rejected("Missing token or type"), None;
      }
      if email.None? && phone.None? {
        return Rejected("Either email or phone is required"), None;
      }
      if email.Some? {
        sent := Some(VerifyEmailOtp(email.value, token.value, EmailOtpTypeFromString(otpType.value)));
      } else {
        sent := Some(VerifyPhoneOtp(phone.value, token.value, PhoneOtpTypeFromString(otpType.value)));
      }
      reply := ResponseReply(sdk, "OTP verification failed: ");
    }

    /** `signOut` */
    method SignOut(sdk: Outcome<()>) returns (reply: Reply, sent: Option<Request>)
      ensures supabaseClient.None? ==> RejectedBeforeSdk(reply, sent, NotInitialized)
      ensures supabaseClient.Some? ==> sent == Some(Request.SignOut)
      ensures sent.Some? ==> RejectsOnFailure(reply, sdk, "Sign out failed: ")
      ensures sent.Some? && sdk.Ok? ==> reply == Resolved(map[])
    {
      if supabaseClient.None? {
        return Rejected(NotInitialized), None;
      }
      sent := Some(Request.SignOut);
      reply := if sdk.Ok? then Resolved(map[]) else Rejected("Sign out failed: " + sdk.message);
    }

    /** `getSession`: `auth.session` throws when there is none; the call then
        resolves with a null session instead of rejecting. */
    method GetSession(sdk: Outcome<Session>) returns (reply: Reply, sent: Option<Request>)
      ensures supabaseClient.None? ==> RejectedBeforeSdk(reply, sent, NotInitialized)
      ensures supabaseClient.Some? ==> sent == Some(CurrentSession) && reply.Resolved?
      ensures sent.Some? ==> reply.result.Keys == {"session"}
      ensures sent.Some? ==> (reply.result["session"] == JsNull <==> sdk.Fail?)
      ensures sent.Some? && sdk.Ok? ==> reply.result["session"] == JsObject(SessionDict(sdk.payload))
    {
      if supabaseClient.None? {
        return Rejected(NotInitialized), None;
      }
      sent := Some(CurrentSession);
      match sdk
      case Ok(s) =>
        reply := Resolved(map["session" := JsObject(SessionDict(s))]);
      case Fail(_) =>
        reply := Resolved(map["session" := JsNull]);
    }

    /** `refreshSession`: unlike `getSession`, a failure rejects. */
    method RefreshSession(sdk: Outcome<Session>) returns (reply: Reply, sent: Option<Request>)
      ensures supabaseClient.None? ==> RejectedBeforeSdk(reply, sent, NotInitialized)
      ensures supabaseClient.Some? ==> sent == Some(Request.RefreshSession)
      ensures sent.Some? ==> RejectsOnFailure(reply, sdk, "Session refresh failed: ")
      ensures sent.Some? && sdk.Ok? ==> reply.result == map["session" := JsObject(SessionDict(sdk.payload))]
    {
      if supabaseClient.None? {
        return Rejected(NotInitialized), None;
      }
      sent := Some(Request.RefreshSession);
      match sdk
      case Fail(m) =>
        reply := Rejected("Session refresh failed: " + m);
      case Ok(s) =>
        reply := Resolved(map["session" := JsObject(SessionDict(s))]);
    }

    /** `getUser`: a failure resolves with a null user instead of
        rejecting. */
    method GetUser(sdk: Outcome<User>) returns (reply: Reply, sent: Option<Request>)
      ensures supabaseClient.None? ==> RejectedBeforeSdk(reply, sent, NotInitialized)
      ensures supabaseClient.Some? ==> sent == Some(CurrentUser) && reply.Resolved?
      ensures sent.Some? ==> reply.result.Keys == {"user"}
      ensures sent.Some? ==> (reply.result["user"] == JsNull <==> sdk.Fail?)
      ensures sent.Some? && sdk.Ok? ==> reply.result["user"] == JsObject(UserDict(sdk.payload))
    {
      if supabaseClient.None? {
        return Rejected(NotInitialized), None;
      }
      sent := Some(CurrentUser);
      match sdk
      case Ok(u) =>
        var dict := UserToDict(u);
        reply := Resolved(map["user" := JsObject(dict)]);
      case Fail(_) =>
        reply := Resolved(map["user" := JsNull]);
    }

    /** `setSession`: hands the token pair to the SDK and reports the
        session it returns; when that session keeps the pair, the reply
        hands the same pair back. */
    method SetSession(accessToken: Option<string>, refreshToken: Option<string>, sdk: Outcome<Session>)
      returns (reply: Reply, sent: Option<Request>)
      ensures supabaseClient.None? ==> RejectedBeforeSdk(reply, sent, NotInitialized)
      ensures supabaseClient.Some? && (accessToken.None? || refreshToken.None?) ==>
        RejectedBeforeSdk(reply, sent, "Missing accessToken or refreshToken")
      ensures sent.Some? <==> supabaseClient.Some? && accessToken.Some? && refreshToken.Some?
      ensures sent.Some? ==> sent.value == Request.SetSession(accessToken.value, refreshToken.value)
      ensures sent.Some? ==> RejectsOnFailure(reply, sdk, "Set session failed: ")
      ensures sent.Some? && sdk.Ok? ==> reply.result == map["session" := JsObject(SessionDict(sdk.payload))]
      ensures sent.Some? && sdk.Ok?
              && sdk.payload.accessToken == accessToken.value
              && sdk.payload.refreshToken == refreshToken.value ==>
        SessionIdentity(reply.result["session"].fields) == Some((accessToken.value, refreshToken.value, sdk.payload.user.id))
    {
      if supabaseClient.None? {
        return Rejected(NotInitialized), None;
      }
      if accessToken.None? || refreshToken.None? {
        return Rejected("Missing accessToken or refreshToken"), None;
      }
      sent := Some(Request.SetSession(accessToken.value, refreshToken.value));
      match sdk
      case Fail(m) =>
        reply := Rejected("Set session failed: " + m);
      case Ok(s) =>
        reply := Resolved(map["session" := JsObject(SessionDict(s))]);
        SessionIdentityRoundTrip(s);
    }

    /** `select`: only the table must be present (an empty name passes); an
        absent filter is accepted. Past that check the call always
        resolves. */
    method Select(
      table: Option<string>,
      columns: Option<string>,
      filter: Option<Entries>,
      limit: Option<int>,
      offset: Option<int>,
      orderBy: Option<string>,
      ascending: Option<bool>,
      single: Option<bool>,
      sdk: Outcome<JsValue>)
      returns (reply: Reply, sent: Option<Request>)
      ensures supabaseClient.None? ==> RejectedBeforeSdk(reply, sent, NotInitialized)
      ensures supabaseClient.Some? && table.None? ==> RejectedBeforeSdk(reply, sent, "Missing table name")
      ensures sent.Some? <==> supabaseClient.Some? && table.Some?
      ensures sent.Some? ==> sent.value.Select?
      ensures sent.Some? ==> SelectQueryFor(sent.value.query, table.value, columns, filter, limit, offset, orderBy, ascending, single)
      ensures sent.Some? ==> EmbedsOutcome(reply, sdk)
    {
      if supabaseClient.None? {
        return Rejected(NotInitialized), None;
      }
      if table.None? {
        return Rejected("Missing table name"), None;
      }
      var q := BuildSelectQuery(table.value, columns, filter, limit, offset, orderBy, ascending, single);
      sent := Some(Request.Select(q));
      reply := Resolved(QueryResult(sdk));
    }

    /** `insert`: a table and a values object must be present. */
    method Insert(table: Option<string>, values: Option<Fields>, sdk: Outcome<JsValue>)
      returns (reply: Reply, sent: Option<Request>)
      ensures supabaseClient.None? ==> RejectedBeforeSdk(reply, sent, NotInitialized)
      ensures supabaseClient.Some? && table.None? ==> RejectedBeforeSdk(reply, sent, "Missing table name")
      ensures supabaseClient.Some? && table.Some? && values.None? ==>
        RejectedBeforeSdk(reply, sent, "Missing values to insert")
      ensures sent.Some? <==> supabaseClient.Some? && table.Some? && values.Some?
      ensures sent.Some? ==> sent.value == Request.Insert(table.value, values.value)
      ensures sent.Some? ==> EmbedsOutcome(reply, sdk)
    {
      if supabaseClient.None? {
        return Rejected(NotInitialized), None;
      }
      if table.None? {
        return Rejected("Missing table name"), None;
      }
      if values.None? {
        return Rejected("Missing values to insert"), None;
      }
      sent := Some(Request.Insert(table.value, values.value));
      reply := Resolved(QueryResult(sdk));
    }

    /** `update`: table, then values, then a filter. The filter check is the
        intended one (`FilterGuard`): the filter must yield at least one
        predicate, so no update reaches every row. */
    method Update(table: Option<string>, values: Option<Fields>, filter: Option<Entries>, sdk: Outcome<JsValue>)
      returns (reply: Reply, sent: Option<Request>)
      ensures supabaseClient.None? ==> RejectedBeforeSdk(reply, sent, NotInitialized)
      ensures supabaseClient.Some? && table.None? ==> RejectedBeforeSdk(reply, sent, "Missing table name")
      ensures supabaseClient.Some? && table.Some? && values.None? ==>
        RejectedBeforeSdk(reply, sent, "Missing values to update")
      ensures supabaseClient.Some? && table.Some? && values.Some? && !FilterGuard(filter) ==>
        RejectedBeforeSdk(reply, sent, "Missing filter for update operation")
      ensures sent.Some? <==> supabaseClient.Some? && table.Some? && values.Some? && FilterGuard(filter)
      ensures sent.Some? ==> sent.value == Request.Update(table.value, values.value, TypedFilters(filter.value))
      ensures sent.Some? ==> |sent.value.filters| > 0
      ensures sent.Some? ==> EmbedsOutcome(reply, sdk)
    {
      if supabaseClient.None? {
        return Rejected(NotInitialized), None;
      }
      if table.None? {
        return Rejected("Missing table name"), None;
      }
      if values.None? {
        return Rejected("Missing values to update"), None;
      }
      if !FilterGuard(filter) {
        return Rejected("Missing filter for update operation"), None;
      }
      var filters := AddTypedFilters(filter.value);
      sent := Some(Request.Update(table.value, values.value, filters));
      reply := Resolved(QueryResult(sdk));
    }

    /** `delete`: table, then a filter; the filter check is the intended
        one, as for `update`. */
    method Delete(table: Option<string>, filter: Option<Entries>, sdk: Outcome<JsValue>)
      returns (reply: Reply, sent: Option<Request>)
      ensures supabaseClient.None? ==> RejectedBeforeSdk(reply, sent, NotInitialized)
      ensures supabaseClient.Some? && table.None? ==> RejectedBeforeSdk(reply, sent, "Missing table name")
      ensures supabaseClient.Some? && table.Some? && !FilterGuard(filter) ==>
        RejectedBeforeSdk(reply, sent, "Missing filter for delete operation")
      ensures sent.Some? <==> supabaseClient.Some? && table.Some? && FilterGuard(filter)
      ensures sent.Some? ==> sent.value == Request.Delete(table.value, TypedFilters(filter.value))
      ensures sent.Some? ==> |sent.value.filters| > 0
      ensures sent.Some? ==> EmbedsOutcome(reply, sdk)
    {
      if supabaseClient.None? {
        return Rejected(NotInitialized), None;
      }
      if table.None? {
        return Rejected("Missing table name"), None;
      }
      if !FilterGuard(filter) {
        return Rejected("Missing filter for delete operation"), None;
      }
      var filters := AddTypedFilters(filter.value);
      sent := Some(Request.Delete(table.value, filters));
      reply := Resolved(QueryResult(sdk));
    }

    /** `getPluginVersion`: answers even before `initialize`. */
    method GetPluginVersion() returns (reply: Reply)
      ensures reply == Resolved(map["version" := JsString(PluginVersion)])
    {
      reply := Resolved(map["version" := JsString(PluginVersion)]);
    }
  }

  /** The reply of a call whose SDK result is a session: the session and its
      own user on success, the prefixed message on failure. */
  method SessionReply(sdk: Outcome<Session>, prefix: string) returns (reply: Reply)
    ensures RejectsOnFailure(reply, sdk, prefix)
    ensures sdk.Ok? ==> reply.result == AuthResult(Some(sdk.payload), Some(sdk.payload.user))
  {
    match sdk
    case Fail(m) =>
      reply := Rejected(prefix + m);
    case Ok(s) =>
      var result := AuthResultToDict(Some(s), Some(s.user));
      reply := Resolved(result);
  }

  /** The reply of a call whose SDK result is an `AuthResponse`. */
  method ResponseReply(sdk: Outcome<AuthResponse>, prefix: string) returns (reply: Reply)
    ensures RejectsOnFailure(reply, sdk, prefix)
    ensures sdk.Ok? ==> reply.result == AuthResult(sdk.payload.session, Some(sdk.payload.user))
  {
    match sdk
    case Fail(m) =>
      reply := Rejected(prefix + m);
    case Ok(r) =>
      var result := AuthResultToDict(r.session, Some(r.user));
      reply := Resolved(result);
  }
}
