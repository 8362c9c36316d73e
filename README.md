# capacitor-supabase bridge request layer, in Dafny

This project models the native halves of the capacitor-supabase plugin. The
plugin lets a Capacitor web app use Supabase authentication and PostgREST
tables through the vendor SDK of each platform: supabase-kt on Android and
supabase-swift on iOS. Each native plugin is a small object. It holds one
optional client handle and at most one live auth-state subscription. Each
of its bridge calls then does four things:
- checks that a client exists;
- checks its inputs in a fixed order;
- asks the SDK for one thing;
- shapes the outcome by one of two conventions.

The first convention rejects the call with a message prefix (sign-in,
sign-up, OTP, sign-out, refresh, set-session). The second always resolves
and embeds the failure. `getSession`/`getUser` return a null field, and
`select`/`insert`/`update`/`delete` return `{data: null, error: message}`.

The two platforms differ in several places, so each has its own modules:

| module | models |
|---|---|
| `Bridge` | bridge values, replies, SDK outcomes, the two reply conventions, ASCII lower-casing |
| `AndroidValues`, `IosValues` | the session and user mappers, and Android's bridge-object-to-JSON conversion |
| `AndroidLookups`, `IosLookups` | provider and OTP-type lookups |
| `AndroidQuery`, `IosQuery` | query building: filter loops, ordering, paging range |
| `AndroidRelay`, `IosRelay` | the auth-state relay loop |
| `AndroidPlugin`, `IosPlugin` | the plugin class: lifecycle and every bridge call |

How the model represents the plugin:
- **The SDK:** it is not modelled. Each call receives the SDK's answer as a
  parameter `Outcome<T> = Ok(payload) | Fail(message)`. Each call returns
  its `Reply` and `sent: Option<Request>`, which is what the call asked of
  the SDK, or `None` when a guard rejected it first.
- **Lifecycle:** `initialize`, listener setup and teardown change the plugin
  object. Its field `jobs` (Android) or `tasks` (iOS) records every auth
  subscription started, so "at most one is live" is an invariant (`Valid`).
- **Auth-state stream:** it is the finite sequence of statuses or changes it
  produced.

Where the code and the API documented in `src/definitions.ts` disagree, the
model follows the code:
- `email` and `phone` of the OTP options are each documented as "required
  if" the other "is not provided" (`src/definitions.ts:263-295`). When both
  are given, `signInWithOtp` and `verifyOtp` use the email on both
  platforms.
- The OTP `type` is typed as one of `'sms' | 'email' | 'magiclink' |
  'signup' | 'recovery'` (`src/definitions.ts:309`). The code accepts any
  string: an unknown one falls back to email or SMS and is never an error.
- The `filter` of select, update and delete is typed `Record<string,
  unknown>`. On iOS, values that are not strings, numbers or booleans add no
  predicate (see Findings).

Other behaviour the model records:
- The iOS guards check presence only, so an empty string passes them
  (`initialize` accepts an empty key).
- The set-session-then-get-session round trip depends on SDK state. It is
  stated for the reply of `setSession` itself.

## Model

Android source: `android/src/main/java/ee/forgr/plugin/capacitor_supabase/CapacitorSupabasePlugin.kt`; iOS source: `ios/Sources/CapacitorSupabasePlugin/CapacitorSupabasePlugin.swift`.

| member | source | states |
|---|---|---|
| Bridge.QueryResult | android/src/main/java/ee/forgr/plugin/capacitor_supabase/CapacitorSupabasePlugin.kt:487-494 | the `{data, error}` object has exactly those keys; `error` is null exactly on success; a failure gives null data and the message |
| Bridge.LowerIdempotent | android/src/main/java/ee/forgr/plugin/capacitor_supabase/CapacitorSupabasePlugin.kt:710 | lowering twice is lowering once, and a lowered string has no capitals |
| Bridge.LowerOfNoUpper | android/src/main/java/ee/forgr/plugin/capacitor_supabase/CapacitorSupabasePlugin.kt:710-730 | a name already in lower case is unchanged by lowering, so the table's names are found |
| AndroidValues.UserFields | android/src/main/java/ee/forgr/plugin/capacitor_supabase/CapacitorSupabasePlugin.kt:667-691 | the user object has `id` always, each optional key exactly when the user has that field and no key outside the seven names; `id`, `email`, `phone` and both metadata objects hold the user's values |
| AndroidValues.UserToJSObject | android/src/main/java/ee/forgr/plugin/capacitor_supabase/CapacitorSupabasePlugin.kt:667-691 | the `put` sequence builds exactly `UserFields(u)` |
| AndroidValues.SessionFields | android/src/main/java/ee/forgr/plugin/capacitor_supabase/CapacitorSupabasePlugin.kt:656-665 | five fixed keys plus `user` exactly when the session has one; both tokens as given; a missing expiry reads 0 |
| AndroidValues.SessionToJSObject | android/src/main/java/ee/forgr/plugin/capacitor_supabase/CapacitorSupabasePlugin.kt:656-665 | the `put` sequence builds exactly `SessionFields(s)` |
| AndroidValues.SessionOrNullToJS | android/src/main/java/ee/forgr/plugin/capacitor_supabase/CapacitorSupabasePlugin.kt:132 | a session becomes its object, no session becomes JSON null |
| AndroidValues.UserOrNullToJS | android/src/main/java/ee/forgr/plugin/capacitor_supabase/CapacitorSupabasePlugin.kt:133 | a user becomes its object, no user becomes JSON null |
| AndroidValues.SessionTokensRoundTrip | android/src/main/java/ee/forgr/plugin/capacitor_supabase/CapacitorSupabasePlugin.kt:656-659 | the token pair read back from a session object is the session's own pair |
| AndroidValues.JsObjectToJsonObject | android/src/main/java/ee/forgr/plugin/capacitor_supabase/CapacitorSupabasePlugin.kt:693-707 | the JSON object has exactly the input's keys |
| AndroidValues.ToJsonElementRoundTrip | android/src/main/java/ee/forgr/plugin/capacitor_supabase/CapacitorSupabasePlugin.kt:693-707 | for values whose every nested value is a string, number, boolean, `null` or `JSObject`, the five branches the `when` names, reading the JSON back gives the input |
| AndroidValues.OtherBecomesString | android/src/main/java/ee/forgr/plugin/capacitor_supabase/CapacitorSupabasePlugin.kt:703 | any other value is kept under its key as the JSON string of its text |
| AndroidValues.NestedObjectConverted | android/src/main/java/ee/forgr/plugin/capacitor_supabase/CapacitorSupabasePlugin.kt:701 | a nested object is converted recursively, by the same conversion |
| AndroidLookups.ProviderByName | android/src/main/java/ee/forgr/plugin/capacitor_supabase/CapacitorSupabasePlugin.kt:711-731 | a provider selected by a name is the provider of exactly that name |
| AndroidLookups.GetOAuthProvider | android/src/main/java/ee/forgr/plugin/capacitor_supabase/CapacitorSupabasePlugin.kt:709-733 | a provider found for an input is the provider whose name is the lowered input |
| AndroidLookups.ProviderFound | android/src/main/java/ee/forgr/plugin/capacitor_supabase/CapacitorSupabasePlugin.kt:709-733 | every input whose lower case is one of the 20 names finds a provider |
| AndroidLookups.ProviderNameLower | android/src/main/java/ee/forgr/plugin/capacitor_supabase/CapacitorSupabasePlugin.kt:711-730 | every provider's name is written without capitals, so lowering leaves it as it is |
| AndroidLookups.ProviderByNameRoundTrip | android/src/main/java/ee/forgr/plugin/capacitor_supabase/CapacitorSupabasePlugin.kt:711-730 | every provider is selected by its exact name |
| AndroidLookups.ProviderNameRoundTrip | android/src/main/java/ee/forgr/plugin/capacitor_supabase/CapacitorSupabasePlugin.kt:709-733 | every provider is found by its own name |
| AndroidLookups.OAuthProviderIgnoresCase | android/src/main/java/ee/forgr/plugin/capacitor_supabase/CapacitorSupabasePlugin.kt:710 | a name and its lower case select the same provider |
| AndroidLookups.NoWorkOS | android/src/main/java/ee/forgr/plugin/capacitor_supabase/CapacitorSupabasePlugin.kt:709-733 | "workos" in any case is not a provider on Android |
| AndroidLookups.GetEmailOtpType | android/src/main/java/ee/forgr/plugin/capacitor_supabase/CapacitorSupabasePlugin.kt:735-743 | signup, magiclink and recovery each exactly for their lowered name; EMAIL for every other string; never INVITE or EMAIL_CHANGE |
| AndroidLookups.GetPhoneOtpType | android/src/main/java/ee/forgr/plugin/capacitor_supabase/CapacitorSupabasePlugin.kt:745-750 | SMS for every string |
| AndroidQuery.WrapInt32 | android/src/main/java/ee/forgr/plugin/capacitor_supabase/CapacitorSupabasePlugin.kt:468 | 32-bit `Int` arithmetic: the identity in range, otherwise congruent modulo 2^32 |
| AndroidQuery.PageRange | android/src/main/java/ee/forgr/plugin/capacitor_supabase/CapacitorSupabasePlugin.kt:466-469 | the range starts at the offset and spans exactly `limit ?: 1000` rows |
| AndroidQuery.PageRangeAsWrittenAgrees | android/src/main/java/ee/forgr/plugin/capacitor_supabase/CapacitorSupabasePlugin.kt:466-469 | while `offset + lim - 1` fits in an `Int`, the range as written is the intended one |
| AndroidQuery.PageRangeAsWrittenWraps | android/src/main/java/ee/forgr/plugin/capacitor_supabase/CapacitorSupabasePlugin.kt:468 | with offset `Int.MAX_VALUE` and no limit, the written end wraps below the start |
| AndroidQuery.AddEqFilters | android/src/main/java/ee/forgr/plugin/capacitor_supabase/CapacitorSupabasePlugin.kt:451-456 | one equality predicate per filter entry, in visiting order, on its key and raw value |
| AndroidQuery.BuildSelectQuery | android/src/main/java/ee/forgr/plugin/capacitor_supabase/CapacitorSupabasePlugin.kt:440-473 | columns default "*"; one predicate per entry; ordering exactly when `orderBy` is given, descending exactly when `ascending` is false; limit as given; range exactly when an offset is given; single exactly when asked |
| AndroidRelay.EventName | android/src/main/java/ee/forgr/plugin/capacitor_supabase/CapacitorSupabasePlugin.kt:80-86 | the four statuses map into the four relayed names; only other statuses are skipped |
| AndroidRelay.RelayedAppend | android/src/main/java/ee/forgr/plugin/capacitor_supabase/CapacitorSupabasePlugin.kt:79-101 | relaying two stretches of the flow is relaying each in turn: no reordering, no merging |
| AndroidRelay.RelayedShape | android/src/main/java/ee/forgr/plugin/capacitor_supabase/CapacitorSupabasePlugin.kt:80-100 | one notification per named status; each has `event` and `session`, a relayed name, and a non-null session exactly for SIGNED_IN |
| AndroidRelay.SignInThenSignOut | android/src/main/java/ee/forgr/plugin/capacitor_supabase/CapacitorSupabasePlugin.kt:80-100 | sign-in then sign-out gives exactly two notifications, in order, with the session then null |
| AndroidRelay.CollectSessionStatus | android/src/main/java/ee/forgr/plugin/capacitor_supabase/CapacitorSupabasePlugin.kt:79-101 | the collecting loop notifies exactly `Relayed(stream)` |
| AndroidPlugin.CapacitorSupabasePlugin.constructor | android/src/main/java/ee/forgr/plugin/capacitor_supabase/CapacitorSupabasePlugin.kt:40-42 | no client, no job, an active scope |
| AndroidPlugin.CapacitorSupabasePlugin.AtMostOneLiveJob | android/src/main/java/ee/forgr/plugin/capacitor_supabase/CapacitorSupabasePlugin.kt:76-78 | under the invariant, the only live job is the one `authStateJob` holds |
| AndroidPlugin.CapacitorSupabasePlugin.HandleOnDestroy | android/src/main/java/ee/forgr/plugin/capacitor_supabase/CapacitorSupabasePlugin.kt:44-48 | every job is cancelled and the scope too; nothing else changes |
| AndroidPlugin.CapacitorSupabasePlugin.SetupAuthStateListener | android/src/main/java/ee/forgr/plugin/capacitor_supabase/CapacitorSupabasePlugin.kt:76-79 | the previous job is cancelled, a new one on the current client is held, and it is the only live one |
| AndroidPlugin.CapacitorSupabasePlugin.Initialize | android/src/main/java/ee/forgr/plugin/capacitor_supabase/CapacitorSupabasePlugin.kt:51-74 | a null or empty URL or key rejects and changes nothing; a creation failure rejects with its message and changes nothing; otherwise the client is replaced and the listener reinstalled |
| AndroidPlugin.CapacitorSupabasePlugin.SignInWithPassword | android/src/main/java/ee/forgr/plugin/capacitor_supabase/CapacitorSupabasePlugin.kt:106-139 | no client, then a null or empty email or password, each reject before the SDK; otherwise the SDK is asked once, and the call rejects "Sign in failed: " + message or resolves `{session, user}` |
| AndroidPlugin.CapacitorSupabasePlugin.SignUp | android/src/main/java/ee/forgr/plugin/capacitor_supabase/CapacitorSupabasePlugin.kt:142-181 | the same guards; the `data` object goes to the SDK converted to JSON; rejects "Sign up failed: " + message or resolves `{session, user}` |
| AndroidPlugin.CapacitorSupabasePlugin.SignInWithOAuth | android/src/main/java/ee/forgr/plugin/capacitor_supabase/CapacitorSupabasePlugin.kt:184-216 | "Missing provider", then "Invalid OAuth provider: " + input, both before the SDK; otherwise the URL of the looked-up provider is asked for |
| AndroidPlugin.CapacitorSupabasePlugin.SignInWithOtp | android/src/main/java/ee/forgr/plugin/capacitor_supabase/CapacitorSupabasePlugin.kt:219-250 | rejects before the SDK exactly when both email and phone are null or empty; the email is used when non-empty, else the phone |
| AndroidPlugin.CapacitorSupabasePlugin.VerifyOtp | android/src/main/java/ee/forgr/plugin/capacitor_supabase/CapacitorSupabasePlugin.kt:253-302 | token checked first, then email or phone; the email is preferred with type `getEmailOtpType(type ?: "email")`, the phone gets SMS |
| AndroidPlugin.CapacitorSupabasePlugin.SignOut | android/src/main/java/ee/forgr/plugin/capacitor_supabase/CapacitorSupabasePlugin.kt:305-320 | rejects "Sign out failed: " + message or resolves empty |
| AndroidPlugin.CapacitorSupabasePlugin.GetSession | android/src/main/java/ee/forgr/plugin/capacitor_supabase/CapacitorSupabasePlugin.kt:323-342 | past the client check it always resolves `{session}`, null on failure |
| AndroidPlugin.CapacitorSupabasePlugin.RefreshSession | android/src/main/java/ee/forgr/plugin/capacitor_supabase/CapacitorSupabasePlugin.kt:345-363 | rejects "Session refresh failed: " + message, else resolves `{session}` |
| AndroidPlugin.CapacitorSupabasePlugin.GetUser | android/src/main/java/ee/forgr/plugin/capacitor_supabase/CapacitorSupabasePlugin.kt:366-385 | past the client check it always resolves `{user}`, null on failure |
| AndroidPlugin.CapacitorSupabasePlugin.SetSession | android/src/main/java/ee/forgr/plugin/capacitor_supabase/CapacitorSupabasePlugin.kt:388-422 | null or empty tokens reject before the SDK; the SDK imports a bearer session of 3600 s with the pair; when the SDK keeps the pair, the reply hands it back |
| AndroidPlugin.CapacitorSupabasePlugin.Select | android/src/main/java/ee/forgr/plugin/capacitor_supabase/CapacitorSupabasePlugin.kt:427-496 | only an empty table rejects; an absent filter passes; the query sent meets `SelectQueryFor`: the table, columns default "*", one predicate per filter entry (none without a filter), ordering exactly when `orderBy` is given and descending exactly when `ascending` is false, the limit as given, a range exactly when an offset is given, single exactly when asked; the reply embeds the outcome |
| AndroidPlugin.CapacitorSupabasePlugin.Insert | android/src/main/java/ee/forgr/plugin/capacitor_supabase/CapacitorSupabasePlugin.kt:499-542 | table, then values, reject before the SDK; the row goes converted to JSON; the reply embeds the outcome |
| AndroidPlugin.CapacitorSupabasePlugin.Update | android/src/main/java/ee/forgr/plugin/capacitor_supabase/CapacitorSupabasePlugin.kt:545-597 | table, values, then a filter with at least one key, each with its own message before the SDK; one predicate per entry; the reply embeds the outcome |
| AndroidPlugin.CapacitorSupabasePlugin.Delete | android/src/main/java/ee/forgr/plugin/capacitor_supabase/CapacitorSupabasePlugin.kt:600-645 | table, then a filter with at least one key; one predicate per entry; the reply embeds the outcome |
| AndroidPlugin.CapacitorSupabasePlugin.GetPluginVersion | android/src/main/java/ee/forgr/plugin/capacitor_supabase/CapacitorSupabasePlugin.kt:648-652 | resolves `{version: "7.0.0"}` with no client check |
| AndroidPlugin.AuthReply | android/src/main/java/ee/forgr/plugin/capacitor_supabase/CapacitorSupabasePlugin.kt:128-136 | a failure rejects with the prefix and message; a success resolves the session and user objects (or nulls) |
| IosValues.UserDict | ios/Sources/CapacitorSupabasePlugin/CapacitorSupabasePlugin.swift:554-585 | `id` and `createdAt` always, each optional key exactly when the user has that field and no key outside the seven names; `id`, `createdAt`, `email`, `phone` and both metadata dictionaries hold the user's values |
| IosValues.UserToDict | ios/Sources/CapacitorSupabasePlugin/CapacitorSupabasePlugin.swift:554-585 | the assignments build exactly `UserDict(u)` |
| IosValues.SessionDict | ios/Sources/CapacitorSupabasePlugin/CapacitorSupabasePlugin.swift:543-552 | all six keys always; both tokens as given; the user as its own dictionary |
| IosValues.SessionIdentityRoundTrip | ios/Sources/CapacitorSupabasePlugin/CapacitorSupabasePlugin.swift:543-552 | the token pair and user id read back from a session dictionary are the session's own |
| IosValues.AuthResult | ios/Sources/CapacitorSupabasePlugin/CapacitorSupabasePlugin.swift:587-600 | keys `session` and `user`; each is null exactly when absent, else its dictionary |
| IosValues.AuthResultToDict | ios/Sources/CapacitorSupabasePlugin/CapacitorSupabasePlugin.swift:587-600 | the assignments build exactly `AuthResult(session, user)` |
| IosValues.SessionUserReported | ios/Sources/CapacitorSupabasePlugin/CapacitorSupabasePlugin.swift:104-105 | a sign-in reports as its user the user inside its session |
| IosLookups.ProviderByName | ios/Sources/CapacitorSupabasePlugin/CapacitorSupabasePlugin.swift:603-626 | a provider selected by a name is the provider of exactly that name |
| IosLookups.OAuthProviderFromString | ios/Sources/CapacitorSupabasePlugin/CapacitorSupabasePlugin.swift:602-627 | a provider found for an input is the provider whose name is the lowered input |
| IosLookups.ProviderFound | ios/Sources/CapacitorSupabasePlugin/CapacitorSupabasePlugin.swift:602-627 | every input whose lower case is one of the 21 names (WorkOS included) finds a provider |
| IosLookups.ProviderNameLower | ios/Sources/CapacitorSupabasePlugin/CapacitorSupabasePlugin.swift:604-624 | every provider's name is written without capitals, so lowering leaves it as it is |
| IosLookups.ProviderByNameRoundTrip | ios/Sources/CapacitorSupabasePlugin/CapacitorSupabasePlugin.swift:604-624 | every provider is selected by its exact name |
| IosLookups.ProviderNameRoundTrip | ios/Sources/CapacitorSupabasePlugin/CapacitorSupabasePlugin.swift:602-627 | every provider is found by its own name |
| IosLookups.ProviderIgnoresCase | ios/Sources/CapacitorSupabasePlugin/CapacitorSupabasePlugin.swift:603 | a name and its lower case select the same provider |
| IosLookups.EmailOtpTypeFromString | ios/Sources/CapacitorSupabasePlugin/CapacitorSupabasePlugin.swift:629-637 | signup, magiclink and recovery each exactly for their lowered name; `.email` otherwise; never `.invite` or `.emailChange` |
| IosLookups.PhoneOtpTypeFromString | ios/Sources/CapacitorSupabasePlugin/CapacitorSupabasePlugin.swift:639-644 | `.sms` for every string |
| IosQuery.TypedValue | ios/Sources/CapacitorSupabasePlugin/CapacitorSupabasePlugin.swift:372-380 | no predicate exactly for null, object and other values |
| IosQuery.TypedFiltersSound | ios/Sources/CapacitorSupabasePlugin/CapacitorSupabasePlugin.swift:370-382 | every predicate comes from an entry with that key and that typed value |
| IosQuery.TypedFiltersComplete | ios/Sources/CapacitorSupabasePlugin/CapacitorSupabasePlugin.swift:370-382 | every entry with a string, integer, double or boolean value yields its predicate |
| IosQuery.AddTypedFilters | ios/Sources/CapacitorSupabasePlugin/CapacitorSupabasePlugin.swift:370-382 | the loop builds exactly `TypedFilters(entries)`, never more predicates than entries |
| IosQuery.NullFilterPassesUnfiltered | ios/Sources/CapacitorSupabasePlugin/CapacitorSupabasePlugin.swift:462-465 | a filter `{id: null}` passes the written check yet yields no predicate |
| IosQuery.FilterGuardRestricts | ios/Sources/CapacitorSupabasePlugin/CapacitorSupabasePlugin.swift:462-465 | the intended check implies the written one, and passes exactly when some entry has a string, integer, double or boolean value |
| IosQuery.PageRange | ios/Sources/CapacitorSupabasePlugin/CapacitorSupabasePlugin.swift:390-392 | the range starts at the offset and spans exactly `limit ?? 1000` rows |
| IosQuery.BuildSelectQuery | ios/Sources/CapacitorSupabasePlugin/CapacitorSupabasePlugin.swift:358-392 | columns default "*"; typed predicates; ordering always, by `orderBy` else "id", descending exactly when `ascending` is false; limit as given; range exactly when an offset is given; single exactly when asked |
| IosRelay.EventName | ios/Sources/CapacitorSupabasePlugin/CapacitorSupabasePlugin.swift:61-76 | the six events map into the six relayed names; only user-deleted and MFA events are skipped |
| IosRelay.RelayedAppend | ios/Sources/CapacitorSupabasePlugin/CapacitorSupabasePlugin.swift:58-86 | relaying two stretches is relaying each in turn |
| IosRelay.RelayedShape | ios/Sources/CapacitorSupabasePlugin/CapacitorSupabasePlugin.swift:58-85 | one notification per named event; each has `event` (a relayed name) and `session`, null or a full session dictionary |
| IosRelay.CancellationKeepsPrefix | ios/Sources/CapacitorSupabasePlugin/CapacitorSupabasePlugin.swift:59 | a later cancellation only adds notifications after those of an earlier one |
| IosRelay.SignedInThenSignedOut | ios/Sources/CapacitorSupabasePlugin/CapacitorSupabasePlugin.swift:58-85 | sign-in with a session then sign-out without gives two notifications, in order, with the session then null |
| IosRelay.ForwardAuthChanges | ios/Sources/CapacitorSupabasePlugin/CapacitorSupabasePlugin.swift:58-86 | the loop relays exactly the changes before the cancellation is seen |
| IosPlugin.CapacitorSupabasePlugin.constructor | ios/Sources/CapacitorSupabasePlugin/CapacitorSupabasePlugin.swift:30-31 | no client and no task |
| IosPlugin.CapacitorSupabasePlugin.AtMostOneLiveTask | ios/Sources/CapacitorSupabasePlugin/CapacitorSupabasePlugin.swift:55-56 | under the invariant, the only uncancelled task is the one `authStateTask` holds |
| IosPlugin.CapacitorSupabasePlugin.Deinit | ios/Sources/CapacitorSupabasePlugin/CapacitorSupabasePlugin.swift:33-35 | the held task is cancelled, leaving none live; nothing else changes |
| IosPlugin.CapacitorSupabasePlugin.SetupAuthStateListener | ios/Sources/CapacitorSupabasePlugin/CapacitorSupabasePlugin.swift:54-57 | the previous task is cancelled, a new one on the current client is held, and it is the only live one |
| IosPlugin.CapacitorSupabasePlugin.Initialize | ios/Sources/CapacitorSupabasePlugin/CapacitorSupabasePlugin.swift:37-52 | an absent URL or key, or a URL that does not parse, rejects and changes nothing; otherwise the client is replaced and the listener restarted |
| IosPlugin.CapacitorSupabasePlugin.SignInWithPassword | ios/Sources/CapacitorSupabasePlugin/CapacitorSupabasePlugin.swift:90-110 | no client, then an absent email or password, reject before the SDK (empty strings pass); rejects "Sign in failed: " + message or resolves the session and its user |
| IosPlugin.CapacitorSupabasePlugin.SignUp | ios/Sources/CapacitorSupabasePlugin/CapacitorSupabasePlugin.swift:112-141 | the same guards; `data` goes to the SDK; rejects "Sign up failed: " + message or resolves the response's session (or null) and user |
| IosPlugin.CapacitorSupabasePlugin.SignInAnonymously | ios/Sources/CapacitorSupabasePlugin/CapacitorSupabasePlugin.swift:143-157 | only the client is checked; rejects "Anonymous sign in failed: " + message or resolves the session and its user |
| IosPlugin.CapacitorSupabasePlugin.SignInWithOAuth | ios/Sources/CapacitorSupabasePlugin/CapacitorSupabasePlugin.swift:159-189 | a missing or unknown provider rejects "Missing or invalid provider" before the SDK; otherwise the URL of the looked-up provider is asked for with the scopes, and with the redirect exactly when it is given, non-empty and parses as a URL |
| IosPlugin.CapacitorSupabasePlugin.SignInWithOtp | ios/Sources/CapacitorSupabasePlugin/CapacitorSupabasePlugin.swift:191-217 | rejects before the SDK exactly when both email and phone are absent; a present email is used, else the phone |
| IosPlugin.CapacitorSupabasePlugin.VerifyOtp | ios/Sources/CapacitorSupabasePlugin/CapacitorSupabasePlugin.swift:219-257 | "Missing token or type" first, then email or phone; the email is preferred with the looked-up email type, the phone gets `.sms` |
| IosPlugin.CapacitorSupabasePlugin.SignOut | ios/Sources/CapacitorSupabasePlugin/CapacitorSupabasePlugin.swift:259-273 | rejects "Sign out failed: " + message or resolves empty |
| IosPlugin.CapacitorSupabasePlugin.GetSession | ios/Sources/CapacitorSupabasePlugin/CapacitorSupabasePlugin.swift:275-289 | past the client check it always resolves `{session}`; null exactly on failure |
| IosPlugin.CapacitorSupabasePlugin.RefreshSession | ios/Sources/CapacitorSupabasePlugin/CapacitorSupabasePlugin.swift:291-305 | rejects "Session refresh failed: " + message, else resolves the new session |
| IosPlugin.CapacitorSupabasePlugin.GetUser | ios/Sources/CapacitorSupabasePlugin/CapacitorSupabasePlugin.swift:307-321 | past the client check it always resolves `{user}`; null exactly on failure |
| IosPlugin.CapacitorSupabasePlugin.SetSession | ios/Sources/CapacitorSupabasePlugin/CapacitorSupabasePlugin.swift:323-343 | absent tokens reject before the SDK; the pair goes to the SDK; when the returned session keeps it, the reply hands it back with the user's id |
| IosPlugin.CapacitorSupabasePlugin.Select | ios/Sources/CapacitorSupabasePlugin/CapacitorSupabasePlugin.swift:347-409 | only an absent table rejects; the query sent meets `SelectQueryFor`: the table, columns default "*", the typed predicates (none without a filter), ordering always by `orderBy` else "id" and descending exactly when `ascending` is false, the limit as given, a range exactly when an offset is given, single exactly when asked; the reply embeds the outcome |
| IosPlugin.CapacitorSupabasePlugin.Insert | ios/Sources/CapacitorSupabasePlugin/CapacitorSupabasePlugin.swift:411-444 | table, then values, reject before the SDK; the reply embeds the outcome |
| IosPlugin.CapacitorSupabasePlugin.Update | ios/Sources/CapacitorSupabasePlugin/CapacitorSupabasePlugin.swift:446-493 | table, values, then a filter yielding at least one predicate (the intended check), each with its own message before the SDK; the reply embeds the outcome |
| IosPlugin.CapacitorSupabasePlugin.Delete | ios/Sources/CapacitorSupabasePlugin/CapacitorSupabasePlugin.swift:495-535 | table, then a filter yielding at least one predicate (the intended check), each with its own message before the SDK; the reply embeds the outcome |
| IosPlugin.CapacitorSupabasePlugin.GetPluginVersion | ios/Sources/CapacitorSupabasePlugin/CapacitorSupabasePlugin.swift:537-539 | resolves `{version: "8.0.5"}` with no client check |
| IosPlugin.SessionReply | ios/Sources/CapacitorSupabasePlugin/CapacitorSupabasePlugin.swift:102-109 | a failure rejects with the prefix and message; a success resolves the session and its own user |
| IosPlugin.ResponseReply | ios/Sources/CapacitorSupabasePlugin/CapacitorSupabasePlugin.swift:126-138 | a failure rejects with the prefix and message; a success resolves the response's session (or null) and user |

## Left out

- The vendor SDKs and everything behind them (HTTP, JWT, PostgREST execution, client creation). Each SDK call is an `Outcome` parameter.
- Concurrency: coroutine scopes, `scope.launch`, Swift `Task`, `MainActor`, and when a call's reply is delivered. A call and its SDK outcome are one step.
- Opening the OAuth URL (`Intent`/`startActivity`, `UIApplication.shared.open`) is I/O. Its failure is part of the `sdk` outcome of `SignInWithOAuth`.
- JSON text round trips of results. Android parses with `JSObject(...)`/`JSArray(...)` and falls back to the raw string; iOS uses `JSONEncoder`/`JSONSerialization`. The rows are an opaque `JsValue`, and an iOS encoding failure is a `Fail` outcome.
- The iOS JSON round trip of `data`/`values` into `[String: AnyJSON]`: the object is passed on unchanged, and a failure there is a `Fail` outcome.
- Date, UUID and `epochSeconds` formatting. Timestamps and ids are kept as text or integers; only which keys are present is modelled.
- Floating-point numbers are an opaque `Double`; nothing computes with them.
- Bridge.Lower: lowers ASCII letters only. Kotlin `lowercase()` and Swift `lowercased()` apply full Unicode case mapping, so a name spelled with a non-ASCII capital such as KELVIN SIGN is not modelled.
- The runtime class of NSNumber. The iOS `as?` chain is modelled by the value's bridge kind, so how a boolean `NSNumber` would dispatch at run time is not followed.
- AndroidValues.JsObjectToJsonObject: its `is JSObject` and `null` branches are modelled as if nested values had those classes. An object from Capacitor's `getObject` holds nested objects as `org.json.JSONObject` and nulls as `JSONObject.NULL`, neither of which those branches match. At run time both take the `else` branch: a nested object in `signUp` data or in `insert`/`update` values reaches the SDK as a string of its JSON text, and a null as the string "null" (not executed).
- AndroidValues.ToJsonElementRoundTrip: the round trip holds for the bridge kinds the `when` names. For the nested objects and nulls `getObject` actually returns, nothing comes back as an object or a null, as the previous line says.
- AndroidQuery.BuildSelectQuery: builds the corrected `PageRange`. Where offset + page size - 1 exceeds `Int.MAX_VALUE`, the code builds the wrapped `PageRangeAsWritten` instead (`PageRangeAsWrittenWraps`). The two agree otherwise (`PageRangeAsWrittenAgrees`).
- AndroidPlugin.CapacitorSupabasePlugin.Select: sends the query of `BuildSelectQuery`, with the corrected range; the line above says where the code differs.
- IosPlugin.CapacitorSupabasePlugin.Update: guards with the corrected `FilterGuard`. The code checks only `!filter.isEmpty` (`FilterGuardAsWritten`), so a filter such as `{id: null}` passes and an update with no predicate is sent (`NullFilterPassesUnfiltered`). The model rejects it with "Missing filter for update operation".
- IosPlugin.CapacitorSupabasePlugin.Delete: guards with the corrected `FilterGuard`, as Update does. The code lets `{id: null}` through and sends a delete with no predicate.
- A null exception message (Kotlin `e.message`): messages are strings.
- AndroidPlugin.CapacitorSupabasePlugin.SetupAuthStateListener: the job reads `supabaseClient` when it starts running, which the model takes to be the client at launch.
- IosRelay.ForwardAuthChanges: the `[weak self]` capture is not modelled. Once the plugin is gone, the real task forwards nothing.
- IosQuery.PageRange: Swift `Int` arithmetic traps on 64-bit overflow, and the model uses unbounded integers.
- The call-to-call round trip of `setSession` then `getSession` needs SDK state, so it is stated only for `setSession`'s own reply.
- `src/web.ts`, `src/definitions.ts`, `src/index.ts`, `example-app/src/main.js` and `Package.swift` are not part of this model. They hold no request-layer logic.

## Findings

| source | as written | input that shows it | evidently intended | confidence | as-written member | corrected member |
|---|---|---|---|---|---|---|
| android/src/main/java/ee/forgr/plugin/capacitor_supabase/CapacitorSupabasePlugin.kt:466-469 | the range end `(off + lim - 1)` is computed in 32-bit `Int` and only then widened to `Long` | offset 2147483647, no limit: range(2147483647, -2147482650) | the end computed in `Long`: range(2147483647, 2147484646), spanning the page size | medium, not executed | AndroidQuery.PageRangeAsWrittenWraps | AndroidQuery.PageRange |
| ios/Sources/CapacitorSupabasePlugin/CapacitorSupabasePlugin.swift:462-465,473-483 | update/delete check only that the filter dictionary is non-empty, but values that are not strings, numbers or booleans add no predicate | update with filter `{id: null}` passes the check and runs with no predicate, so it reaches every row | refuse the operation unless the filter yields at least one predicate, as the "Missing filter" message intends | medium, not executed | IosQuery.NullFilterPassesUnfiltered | IosQuery.FilterGuardRestricts |
