/** The Android auth-state relay (CapacitorSupabasePlugin.kt
    `setupAuthStateListener`): the job collecting the SDK's session-status
    flow turns each status into one `authStateChange` notification, or into
    none. The flow is taken as the finite sequence of statuses it produced. */
module AndroidRelay {
  import opened Bridge
  import opened AndroidValues

  /** supabase-kt `SessionStatus`; `OtherStatus` stands for any status the
      plugin's `when` does not name. */
  datatype SessionStatus =
    | Authenticated(session: UserSession)
    | NotAuthenticated
    | RefreshFailure
    | Initializing
    | OtherStatus

  const RelayedEvents: set<string> := {"SIGNED_IN", "SIGNED_OUT", "TOKEN_REFRESHED", "INITIAL_SESSION"}

  /** The event name each status is published under, or `None` when the
      status is skipped (`return@collect`). */
  function EventName(status: SessionStatus): (r: Option<string>)
    ensures r.Some? ==> r.value in RelayedEvents
    ensures r.None? <==> status.OtherStatus?
  {
    match status
    case Authenticated(_) => Some("SIGNED_IN")
    case NotAuthenticated => Some("SIGNED_OUT")
    case RefreshFailure => Some("TOKEN_REFRESHED")
    case Initializing => Some("INITIAL_SESSION")
    case OtherStatus => None
  }

  /** The notifications one status gives rise to: none for a skipped status,
      else one whose session is the session object for `Authenticated` and
      null otherwise. */
  function NotesOf(status: SessionStatus): seq<Fields> {
    match EventName(status)
    case None => []
    case Some(name) =>
      [map["event" := JsString(name),
           "session" := if status.Authenticated? then JsObject(SessionFields(status.session)) else JsNull]]
  }

  /** Every notification relayed for `stream`, in stream order. */
  function Relayed(stream: seq<SessionStatus>): seq<Fields> {
    if stream == [] then [] else NotesOf(stream[0]) + Relayed(stream[1..])
  }

  /** Relaying is streaming: what two consecutive stretches of the flow
      produce is what each produces, one after the other, so the relay
      neither reorders nor merges notifications. */
  lemma {:induction false} RelayedAppend(a: seq<SessionStatus>, b: seq<SessionStatus>)
    ensures Relayed(a + b) == Relayed(a) + Relayed(b)
  {
    if a == [] {
      assert a + b == b;
    } else {
      var ab := a + b;
      assert ab != [] && ab[0] == a[0];
      assert ab[1..] == a[1..] + b;
      RelayedAppend(a[1..], b);
      calc {
        Relayed(ab);
        NotesOf(a[0]) + Relayed(a[1..] + b);
        NotesOf(a[0]) + (Relayed(a[1..]) + Relayed(b));
        (NotesOf(a[0]) + Relayed(a[1..])) + Relayed(b);
        Relayed(a) + Relayed(b);
      }
    }
  }

  /** The shape of one notification: an event among the four relayed names,
      and a session object exactly for SIGNED_IN. */
  predicate WellFormedNote(note: Fields) {
    && note.Keys == {"event", "session"}
    && note["event"].JsString?
    && note["event"].s in RelayedEvents
    && (note["session"] != JsNull <==> note["event"].s == "SIGNED_IN")
  }

  function CountSkipped(stream: seq<SessionStatus>): nat {
    if stream == [] then 0 else (if stream[0].OtherStatus? then 1 else 0) + CountSkipped(stream[1..])
  }

  /** One notification per status the relay names and none for any other,
      each of them well formed. */
  lemma {:induction false} RelayedShape(stream: seq<SessionStatus>)
    ensures |Relayed(stream)| == |stream| - CountSkipped(stream)
    ensures forall i :: 0 <= i < |Relayed(stream)| ==> WellFormedNote(Relayed(stream)[i])
  {
    if stream != [] {
      RelayedShape(stream[1..]);
    }
  }

  /** A sign-in followed by a sign-out gives exactly two notifications, in
      that order, the first with the session and the second with null. */
  lemma SignInThenSignOut(s: UserSession)
    ensures Relayed([Authenticated(s), NotAuthenticated]) ==
      [map["event" := JsString("SIGNED_IN"), "session" := JsObject(SessionFields(s))],
       map["event" := JsString("SIGNED_OUT"), "session" := JsNull]]
  {
    var stream := [Authenticated(s), NotAuthenticated];
    assert stream[1..] == [NotAuthenticated];
    assert Relayed([NotAuthenticated]) == NotesOf(NotAuthenticated);
    assert Relayed(stream) == NotesOf(Authenticated(s)) + NotesOf(NotAuthenticated);
  }

  /** The collecting job: for each status in turn, skip it or put the event
      name and the session (or null) into a fresh object and notify the
      listeners with it. */
  method CollectSessionStatus(stream: seq<SessionStatus>) returns (notified: seq<Fields>)
    ensures notified == Relayed(stream)
  {
    notified := [];
    var i := 0;
    while i < |stream|
      invariant 0 <= i <= |stream|
      invariant notified == Relayed(stream[..i])
    {
      var status := stream[i];
      RelayedAppend(stream[..i], [status]);
      assert stream[..i + 1] == stream[..i] + [status];
      var eventName := EventName(status);
      if eventName.Some? {
        var data: Fields := map["event" := JsString(eventName.value)];
        if status.Authenticated? {
          var session := SessionToJSObject(status.session);
          data := data["session" := JsObject(session)];
        } else {
          data := data["session" := JsNull];
        }
        notified := notified + [data];
      }
      i := i + 1;
    }
    assert stream[..i] == stream;
  }
}
