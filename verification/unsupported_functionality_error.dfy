/**
 * `UnsupportedFunctionalityError`
 * (packages/provider/src/errors/unsupported-functionality-error.ts): the
 * error raised when a provider lacks a feature. Its marker symbol is
 * created from the same registry string as `APICallError`'s, so
 * `APICallError.isInstance` cannot tell the two apart; the object as
 * written is modelled next to one carrying a marker of its own.
 */
module UnsupportedFunctionality {
  import opened Wrappers
  import opened JsRuntime
  import ApiCallErrors

  const Name: string := "AI_UnsupportedFunctionalityError"
  /** The marker's registry string as written: the one `APICallError` uses. */
  const MarkerAsWritten: string := "vercel.ai.error.api-call-error"
  /** A registry string of the class's own. */
  const MarkerIntended: string := "vercel.ai.error.unsupported-functionality-error"

  const MessageSuffix: string := "' functionality not supported."

  datatype UnsupportedFunctionalityError = UnsupportedFunctionalityError(name: string, message: string, functionality: string)

  /** The message: the functionality in single quotes, then ` functionality not supported.`. */
  function MessageFor(functionality: string): (m: string)
    ensures |m| == |functionality| + 1 + |MessageSuffix|
    ensures m[0] == '\'' && m[1..|functionality| + 1] == functionality && m[|functionality| + 1..] == MessageSuffix
  {
    "'" + functionality + MessageSuffix
  }

  /** Recovers the functionality from a message of that shape. */
  function ParseMessage(m: string): Option<string> {
    if |m| >= 1 + |MessageSuffix| && m[0] == '\'' && m[|m| - |MessageSuffix|..] == MessageSuffix then
      Some(m[1..|m| - |MessageSuffix|])
    else None
  }

  /** The message determines the functionality it names. */
  lemma MessageRoundTrip(functionality: string)
    ensures ParseMessage(MessageFor(functionality)) == Some(functionality)
  {
  }

  /** The constructor: the fixed name, the formatted message and the functionality stored unchanged. */
  function New(functionality: string): (e: UnsupportedFunctionalityError)
    ensures e.name == Name && e.functionality == functionality
    ensures ParseMessage(e.message) == Some(functionality)
  {
    MessageRoundTrip(functionality);
    UnsupportedFunctionalityError(Name, MessageFor(functionality), functionality)
  }

  function ObjectWithMarker(e: UnsupportedFunctionalityError, marker: string): (v: JsValue)
    ensures v.Obj? && v.o.symbols == map[marker := Bool(true)]
    ensures "APICallError" !in v.o.classes && "Error" in v.o.classes
  {
    Obj(JsObject(
      {"Error", "AISDKError", "UnsupportedFunctionalityError"},
      map["name" := Str(e.name), "message" := Str(e.message), "functionality" := Str(e.functionality)],
      map[marker := Bool(true)]))
  }

  /** The error as a JavaScript object, marked as written. */
  function ToObject(e: UnsupportedFunctionalityError): (v: JsValue)
    ensures v.Obj? && v.o.symbols == map[ApiCallErrors.Marker := Bool(true)]
  {
    ObjectWithMarker(e, MarkerAsWritten)
  }

  /** The error as a JavaScript object, marked with a registry string of its own. */
  function ToObjectIntended(e: UnsupportedFunctionalityError): (v: JsValue)
    ensures v.Obj? && v.o.symbols == map[MarkerIntended := Bool(true)]
  {
    ObjectWithMarker(e, MarkerIntended)
  }

  /** The deprecated guard `isUnsupportedFunctionalityError`. */
  predicate IsUnsupportedFunctionalityError(v: JsValue) {
    InstanceOf(v, "Error") && Get(v.o, "name") == Str(Name) && TypeOf(Get(v.o, "functionality")) == "string"
  }

  /** The deprecated guard accepts every constructed error, whichever marker it carries. */
  lemma DeprecatedGuardAccepts(functionality: string)
    ensures IsUnsupportedFunctionalityError(ToObject(New(functionality)))
    ensures IsUnsupportedFunctionalityError(ToObjectIntended(New(functionality)))
  {
  }

  /** The deprecated guard rejects every constructed `APICallError`: the names differ. */
  lemma DeprecatedGuardRejectsApiCallError(args: ApiCallErrors.Args)
    ensures !IsUnsupportedFunctionalityError(ApiCallErrors.ToObject(ApiCallErrors.New(args)))
  {
    assert Get(ApiCallErrors.ToObject(ApiCallErrors.New(args)).o, "name") == Str(ApiCallErrors.Name);
    assert ApiCallErrors.Name[3] != Name[3];
  }

  /** `isAPICallError` rejects every constructed error of this kind: the names differ. */
  lemma ApiCallGuardRejects(functionality: string)
    ensures !ApiCallErrors.IsAPICallError(ToObject(New(functionality)))
  {
    assert Get(ToObject(New(functionality)).o, "name") == Str(Name);
    assert ApiCallErrors.Name[3] != Name[3];
  }

  /** `toJSON()`: name, message, stack and functionality; the stack is whatever the runtime recorded. */
  function ToJSON(e: UnsupportedFunctionalityError, stack: JsValue): (j: JsObject)
    ensures j.props.Keys == {"name", "message", "stack", "functionality"}
    ensures j.props["name"] == Str(e.name) && j.props["message"] == Str(e.message)
    ensures j.props["stack"] == stack && j.props["functionality"] == Str(e.functionality)
  {
    JsObject({"Object"}, map["name" := Str(e.name), "message" := Str(e.message), "stack" := stack,
                             "functionality" := Str(e.functionality)], map[])
  }

  /**
   * As written, `APICallError.isInstance` accepts every
   * `UnsupportedFunctionalityError`, although it is not an `APICallError`.
   */
  lemma MarkerCollision(functionality: string)
    ensures ApiCallErrors.IsInstance(ToObject(New(functionality)))
    ensures !InstanceOf(ToObject(New(functionality)), "APICallError")
  {
  }

  /** With a marker of its own the error is no longer taken for an `APICallError`. */
  lemma IntendedMarkerIsDistinct(functionality: string)
    ensures !ApiCallErrors.IsInstance(ToObjectIntended(New(functionality)))
  {
    var v := ToObjectIntended(New(functionality));
    assert MarkerIntended[16] != ApiCallErrors.Marker[16];
    assert ApiCallErrors.Marker !in v.o.symbols;
  }
}
