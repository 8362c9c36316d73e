/** The iOS auth-state relay (CapacitorSupabasePlugin.swift
    `setupAuthStateListener`): the listener `Task` iterating the SDK's
    `authStateChanges` turns each (event, session) pair into one
    `authStateChange` notification, or into none, and stops once it sees
    that it was cancelled. The sequence is taken as the finite sequence of
    pairs it produced. */
module IosRelay {
  import opened Bridge
  import opened IosValues

  /** supabase-swift `AuthChangeEvent`. */
  datatype AuthChangeEvent =
    | InitialSession
    | PasswordRecovery
    | SignedIn
    | SignedOut
    | TokenRefreshed
    | UserUpdated
    | UserDeleted
    | MfaChallengeVerified

  /** One element of `authStateChanges`. */
  datatype Change = Change(event: AuthChangeEvent, session: Option<Session>)

  const RelayedEvents: set<string> := {
    "INITIAL_SESSION", "SIGNED_IN", "SIGNED_OUT", "TOKEN_REFRESHED", "USER_UPDATED", "PASSWORD_RECOVERY"}

  /** The event name each event is published under, or `None` when the
      `default: continue` branch skips it. */
  function EventName(event: AuthChangeEvent): (r: Option<string>)
    ensures r.Some? ==> r.value in RelayedEvents
    ensures r.None? <==> event == UserDeleted || event == MfaChallengeVerified
  {
    match event
    case InitialSession => Some("INITIAL_SESSION")
    case SignedIn => Some("SIGNED_IN")
    case SignedOut => Some("SIGNED_OUT")
    case TokenRefreshed => Some("TOKEN_REFRESHED")
    case UserUpdated => Some("USER_UPDATED")
    case PasswordRecovery => Some("PASSWORD_RECOVERY")
    case _ => None
  }

  /** The session value of a notification: the session dictionary when the
      change carries one, whatever the event, else null. */
  function SessionValue(session: Option<Session>): JsValue {
    if session.Some? then JsObject(SessionDict(session.value)) else JsNull
  }

  /** The notifications one change gives rise to. */
  function NotesOf(c: Change): seq<Fields> {
    match EventName(c.event)
    case None => []
    case Some(name) => [map["event" := JsString(name), "session" := SessionValue(c.session)]]
  }

  /** Every notification relayed for `changes`, in order. */
  function Relayed(changes: seq<Change>): seq<Fields> {
    if changes == [] then [] else NotesOf(changes[0]) + Relayed(changes[1..])
  }

  /** What two consecutive stretches produce is what each produces, one after
      the other. */
  lemma {:induction false} RelayedAppend(a: seq<Change>, b: seq<Change>)
    ensures Relayed(a + b) == Relayed(a) + Relayed(b)
  {
    if a == [] {
      assert a + b == b;
    } else {
      var ab := a + b;
      assert ab != [] && ab[0] == a[0];
      assert ab[1..] == a[1..] + b;
      RelayedAppend(a[1..], b);
      calc {
        Relayed(ab);
        NotesOf(a[0]) + Relayed(a[1..] + b);
        NotesOf(a[0]) + (Relayed(a[1..]) + Relayed(b));
        (NotesOf(a[0]) + Relayed(a[1..])) + Relayed(b);
        Relayed(a) + Relayed(b);
      }
    }
  }

  /** The shape of one notification: an event among the six relayed names,
      and a session value that is null or a full session dictionary. */
  predicate WellFormedNote(note: Fields) {
    && note.Keys == {"event", "session"}
    && note["event"].JsString?
    && note["event"].s in RelayedEvents
    && (note["session"] == JsNull || (note["session"].JsObject? && note["session"].fields.Keys == SessionKeys))
  }

  function CountSkipped(changes: seq<Change>): nat {
    if changes == [] then 0
    else (if EventName(changes[0].event).None? then 1 else 0) + CountSkipped(changes[1..])
  }

  /** One notification per named event and none for the others, each well
      formed. */
  lemma {:induction false} RelayedShape(changes: seq<Change>)
    ensures |Relayed(changes)| == |changes| - CountSkipped(changes)
    ensures forall i :: 0 <= i < |Relayed(changes)| ==> WellFormedNote(Relayed(changes)[i])
  {
    if changes != [] {
      RelayedShape(changes[1..]);
    }
  }

  /** Cancelling later never withdraws a notification: what is forwarded
      before a cancellation is a prefix of what is forwarded before any later
      one. */
  lemma {:induction false} CancellationKeepsPrefix(changes: seq<Change>, a: nat, b: nat)
    requires a <= b <= |changes|
    ensures Relayed(changes[..b]) == Relayed(changes[..a]) + Relayed(changes[a..b])
  {
    assert changes[..b] == changes[..a] + changes[a..b];
    RelayedAppend(changes[..a], changes[a..b]);
  }

  /** A sign-in carrying a session followed by a sign-out carrying none gives
      exactly two notifications, in that order, the first with the session
      and the second with null. */
  lemma SignedInThenSignedOut(s: Session)
    ensures Relayed([Change(SignedIn, Some(s)), Change(SignedOut, None)]) ==
      [map["event" := JsString("SIGNED_IN"), "session" := JsObject(SessionDict(s))],
       map["event" := JsString("SIGNED_OUT"), "session" := JsNull]]
  {
    var changes := [Change(SignedIn, Some(s)), Change(SignedOut, None)];
    assert changes[1..] == [Change(SignedOut, None)];
    assert Relayed([Change(SignedOut, None)]) == NotesOf(Change(SignedOut, None));
    assert Relayed(changes) == NotesOf(changes[0]) + NotesOf(changes[1]);
  }

  function Min(a: int, b: int): int {
    if a <= b then a else b
  }

  /** The listener `Task`'s loop. It is cancelled after `cancelledAfter` changes
      have been handled; the `Task.isCancelled` check on the next change
      ends the loop, so exactly the changes before it are relayed. */
  method ForwardAuthChanges(changes: seq<Change>, cancelledAfter: nat) returns (notified: seq<Fields>)
    ensures notified == Relayed(changes[..Min(cancelledAfter, |changes|)])
  {
    notified := [];
    var i := 0;
    while i < |changes|
      invariant 0 <= i <= |changes| && i <= cancelledAfter
      invariant notified == Relayed(changes[..i])
    {
      if i == cancelledAfter {
        break;
      }
      var c := changes[i];
      RelayedAppend(changes[..i], [c]);
      assert changes[..i + 1] == changes[..i] + [c];
      var eventName := EventName(c.event);
      if eventName.Some? {
        var data: Fields := map["event" := JsString(eventName.value)];
        if c.session.Some? {
          data := data["session" := JsObject(SessionDict(c.session.value))];
        } else {
          data := data["session" := JsNull];
        }
        notified := notified + [data];
      }
      i := i + 1;
    }
  }
}
