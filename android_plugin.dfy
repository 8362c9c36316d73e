/** The Android plugin object (CapacitorSupabasePlugin.kt): one optional
    client handle, the auth-state job it launched, and the bridge calls.
    Each call checks the client, then its inputs in a fixed order, then asks
    the SDK one thing and shapes the outcome. The SDK's answer is a
    parameter; the out-parameter `sent` says what, if anything, the call
    asked of the SDK, so "rejected before any network call" is `sent.None?`. */
module AndroidPlugin {
  import opened Bridge
  import opened AndroidValues
  import opened AndroidLookups
  import opened AndroidQuery

  const PluginVersion: string := "7.0.0"

  /** What one bridge call asks of the vendor SDK. */
  datatype Request =
    | SignInWithEmail(email: string, password: string)
    | SignUpWithEmail(email: string, password: string, data: Option<map<string, JsonElement>>)
    | GetOAuthUrl(provider: OAuthProvider)
    | SendEmailOtp(email: string)
    | SendPhoneOtp(phone: string)
    | VerifyEmailOtp(emailType: EmailOtpType, email: string, token: string)
    | VerifyPhoneOtp(phoneType: PhoneOtpType, phone: string, token: string)
    | SignOut
    | CurrentSession
    | RefreshCurrentSession
    | CurrentUser
      /** `importSession(UserSession(...))` with no user; the SDK stamps the
          expiry time itself. */
    | ImportSession(accessToken: string, refreshToken: string, expiresIn: int, tokenType: string)
    | Select(query: SelectQuery)
      /** An insert that selects the new row back as a single result. */
    | Insert(table: string, row: map<string, JsonElement>)
      /** An update under the filters that selects the changed rows back. */
    | Update(table: string, row: map<string, JsonElement>, filters: seq<Eq>)
      /** A delete under the filters that selects the deleted rows back. */
    | Delete(table: string, filters: seq<Eq>)

  /** What the SDK reports after a sign-in: `currentSessionOrNull()` and
      `currentUserOrNull()`. */
  datatype AuthState = AuthState(session: Option<UserSession>, user: Option<UserInfo>)

  /** The `{session, user}` object the sign-in calls resolve with. */
  function AuthResult(st: AuthState): Fields {
    map["session" := SessionOrNull(st.session), "user" := UserOrNull(st.user)]
  }

  /** A job launched in the plugin's coroutine scope to collect the
      session-status flow of `source`; `active` until it is cancelled. */
  datatype Job = Job(source: Option<Client>, active: bool)

  class CapacitorSupabasePlugin {
    var supabaseClient: Option<Client>
    /** `authStateJob`, as an index into `jobs`. */
    var authStateJob: Option<nat>
    /** Every auth-state job launched so far, in launch order. */
    var jobs: seq<Job>
    /** The coroutine scope; `false` once cancelled by `handleOnDestroy`. */
    var scopeActive: bool

    /** At most one auth-state job is live, it is the one `authStateJob`
        names, and none is live once the scope is cancelled. */
    ghost predicate Valid()
      reads this
    {
      && (authStateJob.Some? ==> authStateJob.value < |jobs|)
      && (forall j :: 0 <= j < |jobs| && jobs[j].active ==> authStateJob == Some(j))
      && (!scopeActive ==> forall j :: 0 <= j < |jobs| ==> !jobs[j].active)
    }

    ghost function LiveJobs(): set<nat>
      reads this
    {
      set j | 0 <= j < |jobs| && jobs[j].active
    }

    lemma AtMostOneLiveJob()
      requires Valid()
      ensures authStateJob.None? ==> LiveJobs() == {}
      ensures authStateJob.Some? ==> LiveJobs() <= {authStateJob.value}
    {
    }

    constructor ()
      ensures Valid()
      ensures supabaseClient.None? && authStateJob.None? && jobs == [] && scopeActive
    {
      supabaseClient := None;
      authStateJob := None;
      jobs := [];
      scopeActive := true;
    }

    /** `handleOnDestroy`: cancel the auth job, then the whole scope. */
    method HandleOnDestroy()
      requires Valid()
      modifies this
      ensures Valid()
      ensures supabaseClient == old(supabaseClient) && authStateJob == old(authStateJob)
      ensures !scopeActive && LiveJobs() == {}
      ensures |jobs| == |old(jobs)|
      ensures forall j :: 0 <= j < |jobs| ==> jobs[j] == old(jobs[j]).(active := false)
    {
      if authStateJob.Some? {
        jobs := jobs[authStateJob.value := jobs[authStateJob.value].(active := false)];
      }
      var launched := jobs;
      jobs := seq(|launched|, j requires 0 <= j < |launched| => launched[j].(active := false));
      scopeActive := false;
    }

    /** `setupAuthStateListener`: cancel the previous job, then launch a new
        one collecting the current client's statuses. A job launched into a
        cancelled scope never runs. */
    method SetupAuthStateListener()
      requires Valid()
      modifies this
      ensures Valid()
      ensures supabaseClient == old(supabaseClient) && scopeActive == old(scopeActive)
      ensures |jobs| == |old(jobs)| + 1 && authStateJob == Some(|old(jobs)|)
      ensures jobs[|old(jobs)|] == Job(supabaseClient, scopeActive)
      ensures forall j :: 0 <= j < |old(jobs)| ==> jobs[j] == old(jobs[j]).(active := false)
      ensures LiveJobs() == if scopeActive then {|old(jobs)|} else {}
    {
      if authStateJob.Some? {
        jobs := jobs[authStateJob.value := jobs[authStateJob.value].(active := false)];
      }
      jobs := jobs + [Job(supabaseClient, scopeActive)];
      authStateJob := Some(|jobs| - 1);
    }

    /** `initialize`: both values must be non-empty; then the client is
        replaced and the listener reinstalled. When creating the client
        throws, nothing changes. */
    method Initialize(supabaseUrl: Option<string>, supabaseKey: Option<string>, creation: Outcome<()>)
      returns (reply: Reply)
      requires Valid()
      modifies this
      ensures Valid()
      ensures NullOrEmpty(supabaseUrl) || NullOrEmpty(supabaseKey) ==>
        reply == Rejected("Missing supabaseUrl or supabaseKey") && unchanged(this)
      ensures !NullOrEmpty(supabaseUrl) && !NullOrEmpty(supabaseKey) && creation.Fail? ==>
        reply == Rejected("Failed to initialize Supabase client: " + creation.message) && unchanged(this)
      ensures !NullOrEmpty(supabaseUrl) && !NullOrEmpty(supabaseKey) && creation.Ok? ==>
        && reply == Resolved(map[])
        && supabaseClient == Some(Client(supabaseUrl.value, supabaseKey.value))
        && scopeActive == old(scopeActive)
        && |jobs| == |old(jobs)| + 1
        && authStateJob == Some(|old(jobs)|)
        && jobs[|old(jobs)|] == Job(supabaseClient, scopeActive)
        && (forall j :: 0 <= j < |old(jobs)| ==> jobs[j] == old(jobs[j]).(active := false))
        && LiveJobs() == (if scopeActive then {|old(jobs)|} else {})
    {
      if NullOrEmpty(supabaseUrl) || NullOrEmpty(supabaseKey) {
        return Rejected("Missing supabaseUrl or supabaseKey");
      }
      match creation
      case Fail(m) =>
        reply := Rejected("Failed to initialize Supabase client: " + m);
      case Ok(_) =>
        supabaseClient := Some(Client(supabaseUrl.value, supabaseKey.value));
        SetupAuthStateListener();
        reply := Resolved(map[]);
    }

    /** `signInWithPassword` */
    method SignInWithPassword(email: Option<string>, password: Option<string>, sdk: Outcome<AuthState>)
      returns (reply: Reply, sent: Option<Request>)
      ensures supabaseClient.None? ==> RejectedBeforeSdk(reply, sent, NotInitialized)
      ensures supabaseClient.Some? && (NullOrEmpty(email) || NullOrEmpty(password)) ==>
        RejectedBeforeSdk(reply, sent, "Missing email or password")
      ensures sent.Some? <==> supabaseClient.Some? && !NullOrEmpty(email) && !NullOrEmpty(password)
      ensures sent.Some? ==> sent.value == SignInWithEmail(email.value, password.value)
      ensures sent.Some? ==> RejectsOnFailure(reply, sdk, "Sign in failed: ")
      ensures sent.Some? && sdk.Ok? ==> reply.result == AuthResult(sdk.payload)
    {
      if supabaseClient.None? {
        return Rejected(NotInitialized), None;
      }
      if NullOrEmpty(email) || NullOrEmpty(password) {
        return Rejected("Missing email or password"), None;
      }
      sent := Some(SignInWithEmail(email.value, password.value));
      reply := AuthReply(sdk, "Sign in failed: ");
    }

    /** `signUp`: the optional `data` object goes to the SDK converted to
        JSON. */
    method SignUp(email: Option<string>, password: Option<string>, data: Option<Fields>, sdk: Outcome<AuthState>)
      returns (reply: Reply, sent: Option<Request>)
      ensures supabaseClient.None? ==> RejectedBeforeSdk(reply, sent, NotInitialized)
      ensures supabaseClient.Some? && (NullOrEmpty(email) || NullOrEmpty(password)) ==>
        RejectedBeforeSdk(reply, sent, "Missing email or password")
      ensures sent.Some? <==> supabaseClient.Some? && !NullOrEmpty(email) && !NullOrEmpty(password)
      ensures sent.Some? ==> sent.value.SignUpWithEmail? && sent.value.email == email.value && sent.value.password == password.value
      ensures sent.Some? ==> (sent.value.data.Some? <==> data.Some?)
      ensures sent.Some? && data.Some? ==> sent.value.data.value == JsObjectToJsonObject(data.value)
      ensures sent.Some? ==> RejectsOnFailure(reply, sdk, "Sign up failed: ")
      ensures sent.Some? && sdk.Ok? ==> reply.result == AuthResult(sdk.payload)
    {
      if supabaseClient.None? {
        return Rejected(NotInitialized), None;
      }
      if NullOrEmpty(email) || NullOrEmpty(password) {
        return Rejected("Missing email or password"), None;
      }
      var json := if data.Some? then Some(JsObjectToJsonObject(data.value)) else None;
      sent := Some(SignUpWithEmail(email.value, password.value, json));
      reply := AuthReply(sdk, "Sign up failed: ");
    }

    /** `signInWithOAuth`: a missing provider is rejected at once, an unknown
        one before the SDK is asked for the URL. `redirectTo` is read but
        never used. `sdk` covers fetching the URL and opening it. */
    method SignInWithOAuth(provider: Option<string>, redirectTo: Option<string>, sdk: Outcome<()>)
      returns (reply: Reply, sent: Option<Request>)
      ensures supabaseClient.None? ==> RejectedBeforeSdk(reply, sent, NotInitialized)
      ensures supabaseClient.Some? && NullOrEmpty(provider) ==> RejectedBeforeSdk(reply, sent, "Missing provider")
      ensures supabaseClient.Some? && !NullOrEmpty(provider) && GetOAuthProvider(provider.value).None? ==>
        RejectedBeforeSdk(reply, sent, "Invalid OAuth provider: " + provider.value)
      ensures sent.Some? <==> supabaseClient.Some? && !NullOrEmpty(provider) && GetOAuthProvider(provider.value).Some?
      ensures sent.Some? ==> sent.value == GetOAuthUrl(GetOAuthProvider(provider.value).value)
      ensures sent.Some? ==> RejectsOnFailure(reply, sdk, "OAuth sign in failed: ")
      ensures sent.Some? && sdk.Ok? ==> reply == Resolved(map[])
    {
      if supabaseClient.None? {
        return Rejected(NotInitialized), None;
      }
      if NullOrEmpty(provider) {
        return Rejected("Missing provider"), None;
      }
      var p := GetOAuthProvider(provider.value);
      if p.None? {
        return Rejected("Invalid OAuth provider: " + provider.value), None;
      }
      sent := Some(GetOAuthUrl(p.value));
      reply := if sdk.Ok? then Resolved(map[]) else Rejected("OAuth sign in failed: " + sdk.message);
    }

    /** `signInWithOtp`: the email when it is non-empty, else the phone. */
    method SignInWithOtp(email: Option<string>, phone: Option<string>, sdk: Outcome<()>)
      returns (reply: Reply, sent: Option<Request>)
      ensures supabaseClient.None? ==> RejectedBeforeSdk(reply, sent, NotInitialized)
      ensures supabaseClient.Some? && NullOrEmpty(email) && NullOrEmpty(phone) ==>
        RejectedBeforeSdk(reply, sent, "Either email or phone is required")
      ensures sent.Some? <==> supabaseClient.Some? && !(NullOrEmpty(email) && NullOrEmpty(phone))
      ensures sent.Some? && !NullOrEmpty(email) ==> sent.value == SendEmailOtp(email.value)
      ensures sent.Some? && NullOrEmpty(email) ==> sent.value == SendPhoneOtp(phone.value)
      ensures sent.Some? ==> RejectsOnFailure(reply, sdk, "OTP sign in failed: ")
      ensures sent.Some? && sdk.Ok? ==> reply == Resolved(map[])
    {
      if supabaseClient.None? {
        return Rejected(NotInitialized), None;
      }
      if NullOrEmpty(email) && NullOrEmpty(phone) {
        return Rejected("Either email or phone is required"), None;
      }
      if !NullOrEmpty(email) {
        sent := Some(SendEmailOtp(email.value));
      } else {
        sent := Some(SendPhoneOtp(phone.value));
      }
      reply := if sdk.Ok? then Resolved(map[]) else Rejected("OTP sign in failed: " + sdk.message);
    }

    /** `verifyOtp`: the token first, then an email or a phone; the email is
        preferred, and a missing type defaults to "email" or "sms". */
    method VerifyOtp(email: Option<string>, phone: Option<string>, token: Option<string>, otpType: Option<string>, sdk: Outcome<AuthState>)
      returns (reply: Reply, sent: Option<Request>)
      ensures supabaseClient.None? ==> RejectedBeforeSdk(reply, sent, NotInitialized)
      ensures supabaseClient.Some? && NullOrEmpty(token) ==> RejectedBeforeSdk(reply, sent, "Missing token")
      ensures supabaseClient.Some? && !NullOrEmpty(token) && NullOrEmpty(email) && NullOrEmpty(phone) ==>
        RejectedBeforeSdk(reply, sent, "Either email or phone is required")
      ensures sent.Some? <==> supabaseClient.Some? && !NullOrEmpty(token) && !(NullOrEmpty(email) && NullOrEmpty(phone))
      ensures sent.Some? && !NullOrEmpty(email) ==>
        sent.value == VerifyEmailOtp(GetEmailOtpType(if otpType.Some? then otpType.value else "email"), email.value, token.value)
      ensures sent.Some? && NullOrEmpty(email) ==>
        sent.value == VerifyPhoneOtp(Sms, phone.value, token.value)
      ensures sent.Some? ==> RejectsOnFailure(reply, sdk, "OTP verification failed: ")
      ensures sent.Some? && sdk.Ok? ==> reply.result == AuthResult(sdk.payload)
    {
      if supabaseClient.None? {
        return Rejected(NotInitialized), None;
      }
      if NullOrEmpty(token) {
        return Rejected("Missing token"), None;
      }
      if NullOrEmpty(email) && NullOrEmpty(phone) {
        return Rejected("Either email or phone is required"), None;
      }
      if !NullOrEmpty(email) {
        var t := GetEmailOtpType(if otpType.Some? then otpType.value else "email");
        sent := Some(VerifyEmailOtp(t, email.value, token.value));
      } else {
        var t := GetPhoneOtpType(if otpType.Some? then otpType.value else "sms");
        sent := Some(VerifyPhoneOtp(t, phone.value, token.value));
      }
      reply := AuthReply(sdk, "OTP verification failed: ");
    }

    /** `signOut` */
    method SignOut(sdk: Outcome<()>) returns (reply: Reply, sent: Option<Request>)
      ensures supabaseClient.None? ==> RejectedBeforeSdk(reply, sent, NotInitialized)
      ensures supabaseClient.Some? ==> sent == Some(Request.SignOut)
      ensures sent.Some? ==> RejectsOnFailure(reply, sdk, "Sign out failed: ")
      ensures sent.Some? && sdk.Ok? ==> reply == Resolved(map[])
    {
      if supabaseClient.None? {
        return Rejected(NotInitialized), None;
      }
      sent := Some(Request.SignOut);
      reply := if sdk.Ok? then Resolved(map[]) else Rejected("Sign out failed: " + sdk.message);
    }

    /** `getSession`: once past the client check it never rejects; a failure
        reads as "no session". */
    method GetSession(sdk: Outcome<Option<UserSession>>) returns (reply: Reply, sent: Option<Request>)
      ensures supabaseClient.None? ==> RejectedBeforeSdk(reply, sent, NotInitialized)
      ensures supabaseClient.Some? ==> sent == Some(CurrentSession) && reply.Resolved?
      ensures sent.Some? ==> reply.result.Keys == {"session"}
      ensures sent.Some? ==> reply.result["session"] == if sdk.Ok? then SessionOrNull(sdk.payload) else JsNull
    {
      if supabaseClient.None? {
        return Rejected(NotInitialized), None;
      }
      sent := Some(CurrentSession);
      var session := JsNull;
      if sdk.Ok? {
        session := SessionOrNullToJS(sdk.payload);
      }
      reply := Resolved(map["session" := session]);
    }

    /** `refreshSession`: unlike `getSession`, a failure rejects. */
    method RefreshSession(sdk: Outcome<Option<UserSession>>) returns (reply: Reply, sent: Option<Request>)
      ensures supabaseClient.None? ==> RejectedBeforeSdk(reply, sent, NotInitialized)
      ensures supabaseClient.Some? ==> sent == Some(RefreshCurrentSession)
      ensures sent.Some? ==> RejectsOnFailure(reply, sdk, "Session refresh failed: ")
      ensures sent.Some? && sdk.Ok? ==> reply.result == map["session" := SessionOrNull(sdk.payload)]
    {
      if supabaseClient.None? {
        return Rejected(NotInitialized), None;
      }
      sent := Some(RefreshCurrentSession);
      match sdk
      case Fail(m) =>
        reply := Rejected("Session refresh failed: " + m);
      case Ok(s) =>
        var session := SessionOrNullToJS(s);
        reply := Resolved(map["session" := session]);
    }

    /** `getUser`: once past the client check it never rejects; a failure
        reads as "no user". */
    method GetUser(sdk: Outcome<Option<UserInfo>>) returns (reply: Reply, sent: Option<Request>)
      ensures supabaseClient.None? ==> RejectedBeforeSdk(reply, sent, NotInitialized)
      ensures supabaseClient.Some? ==> sent == Some(CurrentUser) && reply.Resolved?
      ensures sent.Some? ==> reply.result.Keys == {"user"}
      ensures sent.Some? ==> reply.result["user"] == if sdk.Ok? then UserOrNull(sdk.payload) else JsNull
    {
      if supabaseClient.None? {
        return Rejected(NotInitialized), None;
      }
      sent := Some(CurrentUser);
      var user := JsNull;
      if sdk.Ok? {
        user := UserOrNullToJS(sdk.payload);
      }
      reply := Resolved(map["user" := user]);
    }

    /** `setSession`: imports a bearer session valid for 3600 seconds with no
        user, then reports the SDK's current session. When the SDK keeps the
        imported pair, the reply hands the same pair back. */
    method SetSession(accessToken: Option<string>, refreshToken: Option<string>, sdk: Outcome<Option<UserSession>>)
      returns (reply: Reply, sent: Option<Request>)
      ensures supabaseClient.None? ==> RejectedBeforeSdk(reply, sent, NotInitialized)
      ensures supabaseClient.Some? && (NullOrEmpty(accessToken) || NullOrEmpty(refreshToken)) ==>
        RejectedBeforeSdk(reply, sent, "Missing accessToken or refreshToken")
      ensures sent.Some? <==> supabaseClient.Some? && !NullOrEmpty(accessToken) && !NullOrEmpty(refreshToken)
      ensures sent.Some? ==> sent.value == ImportSession(accessToken.value, refreshToken.value, 3600, "bearer")
      ensures sent.Some? ==> RejectsOnFailure(reply, sdk, "Set session failed: ")
      ensures sent.Some? && sdk.Ok? ==> reply.result == map["session" := SessionOrNull(sdk.payload)]
      ensures sent.Some? && sdk.Ok? && sdk.payload.Some?
              && sdk.payload.value.accessToken == accessToken.value
              && sdk.payload.value.refreshToken == refreshToken.value ==>
        TokensOf(reply.result["session"].fields) == Some((accessToken.value, refreshToken.value))
    {
      if supabaseClient.None? {
        return Rejected(NotInitialized), None;
      }
      if NullOrEmpty(accessToken) || NullOrEmpty(refreshToken) {
        return Rejected("Missing accessToken or refreshToken"), None;
      }
      sent := Some(ImportSession(accessToken.value, refreshToken.value, 3600, "bearer"));
      match sdk
      case Fail(m) =>
        reply := Rejected("Set session failed: " + m);
      case Ok(s) =>
        var session := SessionOrNullToJS(s);
        reply := Resolved(map["session" := session]);
        if s.Some? {
          SessionTokensRoundTrip(s.value);
        }
    }

    /** `select`: only the table name is required; an absent filter is
        accepted. Past that check the call always resolves. */
    method Select(
      table: Option<string>,
      columns: Option<string>,
      filter: Option<Entries>,
      limit: Option<Int32>,
      offset: Option<Int32>,
      orderBy: Option<string>,
      ascending: Option<bool>,
      single: Option<bool>,
      sdk: Outcome<JsValue>)
      returns (reply: Reply, sent: Option<Request>)
      ensures supabaseClient.None? ==> RejectedBeforeSdk(reply, sent, NotInitialized)
      ensures supabaseClient.Some? && NullOrEmpty(table) ==> RejectedBeforeSdk(reply, sent, "Missing table name")
      ensures sent.Some? <==> supabaseClient.Some? && !NullOrEmpty(table)
      ensures sent.Some? ==> sent.value.Select?
      ensures sent.Some? ==> SelectQueryFor(sent.value.query, table.value, columns, filter, limit, offset, orderBy, ascending, single)
      ensures sent.Some? ==> EmbedsOutcome(reply, sdk)
    {
      if supabaseClient.None? {
        return Rejected(NotInitialized), None;
      }
      if NullOrEmpty(table) {
        return Rejected("Missing table name"), None;
      }
      var q := BuildSelectQuery(table.value, columns, filter, limit, offset, orderBy, ascending, single);
      sent := Some(Request.Select(q));
      reply := Resolved(QueryResult(sdk));
    }

    /** `insert`: a table name and a values object are required. */
    method Insert(table: Option<string>, values: Option<Fields>, sdk: Outcome<JsValue>)
      returns (reply: Reply, sent: Option<Request>)
      ensures supabaseClient.None? ==> RejectedBeforeSdk(reply, sent, NotInitialized)
      ensures supabaseClient.Some? && NullOrEmpty(table) ==> RejectedBeforeSdk(reply, sent, "Missing table name")
      ensures supabaseClient.Some? && !NullOrEmpty(table) && values.None? ==>
        RejectedBeforeSdk(reply, sent, "Missing values to insert")
      ensures sent.Some? <==> supabaseClient.Some? && !NullOrEmpty(table) && values.Some?
      ensures sent.Some? ==> sent.value == Request.Insert(table.value, JsObjectToJsonObject(values.value))
      ensures sent.Some? ==> EmbedsOutcome(reply, sdk)
    {
      if supabaseClient.None? {
        return Rejected(NotInitialized), None;
      }
      if NullOrEmpty(table) {
        return Rejected("Missing table name"), None;
      }
      if values.None? {
        return Rejected("Missing values to insert"), None;
      }
      sent := Some(Request.Insert(table.value, JsObjectToJsonObject(values.value)));
      reply := Resolved(QueryResult(sdk));
    }

    /** `update`: table, then values, then a filter with at least one key;
        an unfiltered update is refused before any query is built. */
    method Update(table: Option<string>, values: Option<Fields>, filter: Option<Entries>, sdk: Outcome<JsValue>)
      returns (reply: Reply, sent: Option<Request>)
      ensures supabaseClient.None? ==> RejectedBeforeSdk(reply, sent, NotInitialized)
      ensures supabaseClient.Some? && NullOrEmpty(table) ==> RejectedBeforeSdk(reply, sent, "Missing table name")
      ensures supabaseClient.Some? && !NullOrEmpty(table) && values.None? ==>
        RejectedBeforeSdk(reply, sent, "Missing values to update")
      ensures supabaseClient.Some? && !NullOrEmpty(table) && values.Some? && (filter.None? || |filter.value| == 0) ==>
        RejectedBeforeSdk(reply, sent, "Missing filter for update operation")
      ensures sent.Some? <==> supabaseClient.Some? && !NullOrEmpty(table) && values.Some? && filter.Some? && |filter.value| > 0
      ensures sent.Some? ==> sent.value.Update? && sent.value.table == table.value
      ensures sent.Some? ==> sent.value.row == JsObjectToJsonObject(values.value)
      ensures sent.Some? ==> OneEqPerEntry(sent.value.filters, filter.value) && |sent.value.filters| > 0
      ensures sent.Some? ==> EmbedsOutcome(reply, sdk)
    {
      if supabaseClient.None? {
        return Rejected(NotInitialized), None;
      }
      if NullOrEmpty(table) {
        return Rejected("Missing table name"), None;
      }
      if values.None? {
        return Rejected("Missing values to update"), None;
      }
      if filter.None? || |filter.value| == 0 {
        return Rejected("Missing filter for update operation"), None;
      }
      var filters := AddEqFilters(filter.value);
      sent := Some(Request.Update(table.value, JsObjectToJsonObject(values.value), filters));
      reply := Resolved(QueryResult(sdk));
    }

    /** `delete`: table, then a filter with at least one key; an unfiltered
        delete is refused before any query is built. */
    method Delete(table: Option<string>, filter: Option<Entries>, sdk: Outcome<JsValue>)
      returns (reply: Reply, sent: Option<Request>)
      ensures supabaseClient.None? ==> RejectedBeforeSdk(reply, sent, NotInitialized)
      ensures supabaseClient.Some? && NullOrEmpty(table) ==> RejectedBeforeSdk(reply, sent, "Missing table name")
      ensures supabaseClient.Some? && !NullOrEmpty(table) && (filter.None? || |filter.value| == 0) ==>
        RejectedBeforeSdk(reply, sent, "Missing filter for delete operation")
      ensures sent.Some? <==> supabaseClient.Some? && !NullOrEmpty(table) && filter.Some? && |filter.value| > 0
      ensures sent.Some? ==> sent.value.Delete? && sent.value.table == table.value
      ensures sent.Some? ==> OneEqPerEntry(sent.value.filters, filter.value) && |sent.value.filters| > 0
      ensures sent.Some? ==> EmbedsOutcome(reply, sdk)
    {
      if supabaseClient.None? {
        return Rejected(NotInitialized), None;
      }
      if NullOrEmpty(table) {
        return Rejected("Missing table name"), None;
      }
      if filter.None? || |filter.value| == 0 {
        return Rejected("Missing filter for delete operation"), None;
      }
      var filters := AddEqFilters(filter.value);
      sent := Some(Request.Delete(table.value, filters));
      reply := Resolved(QueryResult(sdk));
    }

    /** `getPluginVersion`: answers even before `initialize`. */
    method GetPluginVersion() returns (reply: Reply)
      ensures reply == Resolved(map["version" := JsString(PluginVersion)])
    {
      reply := Resolved(map["version" := JsString(PluginVersion)]);
    }
  }

  /** The reply of a sign-in style call: the `{session, user}` object on
      success, the prefixed message on failure. */
  method AuthReply(sdk: Outcome<AuthState>, prefix: string) returns (reply: Reply)
    ensures RejectsOnFailure(reply, sdk, prefix)
    ensures sdk.Ok? ==> reply.result == AuthResult(sdk.payload)
  {
    match sdk
    case Fail(m) =>
      reply := Rejected(prefix + m);
    case Ok(st) =>
      var session := SessionOrNullToJS(st.session);
      var user := UserOrNullToJS(st.user);
      reply := Resolved(map["session" := session, "user" := user]);
  }
}
