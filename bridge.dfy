/** Vocabulary shared by the Android and iOS plugins: the values that cross the
    Capacitor bridge, the answer a bridge call gives, the outcome of one call
    into the vendor SDK, and the input checks both platforms use. */
module Bridge {

  datatype Option<+T> = None | Some(value: T)

  /** The outcome of one call into the vendor SDK. The SDK is not modelled:
      a bridge call receives this outcome as a parameter. `Fail` carries the
      message of the exception (Kotlin `e.message`, Swift
      `error.localizedDescription`). */
  datatype Outcome<+T> = Ok(payload: T) | Fail(message: string)

  /** A floating-point number; nothing in the plugins computes with one, so it
      is kept opaque. */
  datatype Double = Double(text: string)

  datatype Number = IntNumber(i: int) | DoubleNumber(d: Double)

  /** A value of the bridge's generic object model (Capacitor `JSObject` on
      Android, `[String: Any]` on iOS). `JsOther` is a value of any other
      runtime class (an array, say), known only by its string form. */
  datatype JsValue =
    | JsNull
    | JsString(s: string)
    | JsNumber(n: Number)
    | JsBool(b: bool)
    | JsObject(fields: map<string, JsValue>)
    | JsOther(text: string)

  type Fields = map<string, JsValue>

  /** A bridge object as the runtime enumerates it: its entries in the order
      its keys are visited. */
  type Entries = seq<(string, JsValue)>

  /** How a bridge call ends: `call.resolve(result)` or `call.reject(message)`.
      `call.resolve()` with no argument resolves with the empty object. */
  datatype Reply = Resolved(result: Fields) | Rejected(message: string)

  const NotInitialized: string := "Supabase client not initialized. Call initialize() first."

  /** The handle `initialize` creates: one configured connection to the
      backend. */
  datatype Client = Client(url: string, key: string)

  /** Kotlin's `isNullOrEmpty()` on an optional string. */
  predicate NullOrEmpty(s: Option<string>) {
    s.None? || s.value == ""
  }

  function LowerChar(c: char): char {
    if 'A' <= c <= 'Z' then (c as int + 32) as char else c
  }

  /** Case folding as `lowercase()` / `lowercased()` perform it, on ASCII
      letters. */
  function Lower(s: string): (r: string)
    ensures |r| == |s|
    ensures forall i :: 0 <= i < |s| ==> r[i] == LowerChar(s[i])
  {
    seq(|s|, i requires 0 <= i < |s| => LowerChar(s[i]))
  }

  predicate NoUpper(s: string) {
    forall i :: 0 <= i < |s| ==> !('A' <= s[i] <= 'Z')
  }

  /** Lowering twice is lowering once, so a lookup through `Lower` sees the
      same key for `s` and for `Lower(s)`. */
  lemma LowerIdempotent(s: string)
    ensures Lower(Lower(s)) == Lower(s)
    ensures NoUpper(Lower(s))
  {
    forall i | 0 <= i < |s| ensures Lower(Lower(s))[i] == Lower(s)[i] {
      assert LowerChar(LowerChar(s[i])) == LowerChar(s[i]);
    }
  }

  /** A string without capitals is its own lower case: names written in
      lower case are found by a lookup that lowers its input. */
  lemma LowerOfNoUpper(s: string)
    requires NoUpper(s)
    ensures Lower(s) == s
  {
  }

  /** The call was rejected with `message` by a guard, before anything was
      asked of the SDK. */
  predicate RejectedBeforeSdk<R>(reply: Reply, sent: Option<R>, message: string) {
    reply == Rejected(message) && sent.None?
  }

  /** The reject-on-failure convention: an SDK failure rejects the call with
      the operation's message prefix; an SDK success resolves it. */
  predicate RejectsOnFailure<T>(reply: Reply, sdk: Outcome<T>, prefix: string) {
    match sdk
    case Fail(m) => reply == Rejected(prefix + m)
    case Ok(_) => reply.Resolved?
  }

  /** The embedded-error convention of the four table operations: the call
      always resolves with `{data, error}`; a failure gives a null `data` and
      the message as `error`, a success gives the rows as `data` and a null
      `error`. */
  predicate EmbedsOutcome(reply: Reply, sdk: Outcome<JsValue>) {
    && reply.Resolved?
    && reply.result.Keys == {"data", "error"}
    && (reply.result["error"] == JsNull <==> sdk.Ok?)
    && (match sdk
        case Fail(m) => reply.result["data"] == JsNull && reply.result["error"] == JsString(m)
        case Ok(rows) => reply.result["data"] == rows)
  }

  /** The `{data, error}` object a table operation resolves with. */
  function QueryResult(sdk: Outcome<JsValue>): (r: Fields)
    ensures EmbedsOutcome(Resolved(r), sdk)
  {
    match sdk
    case Ok(rows) => map["data" := rows, "error" := JsNull]
    case Fail(m) => map["data" := JsNull, "error" := JsString(m)]
  }
}
