/**
 * `APICallError` (packages/provider/src/errors/api-call-error.ts): the
 * error raised for a failed provider call. Its fields are set once by the
 * constructor, so it is modelled as a value together with the JavaScript
 * object it becomes, on which the type guards work.
 */
module ApiCallErrors {
  import opened Wrappers
  import opened JsRuntime

  /** The registry string of the marker symbol, `Symbol.for('vercel.ai.error.api-call-error')`. */
  const Marker: string := "vercel.ai.error.api-call-error"
  const Name: string := "AI_APICallError"

  /** The constructor's argument object; optional fields are `Option`s, `unknown` ones are any value. */
  datatype Args = Args(
    message: string,
    url: string,
    requestBodyValues: JsValue,
    statusCode: Option<int>,
    responseHeaders: Option<map<string, string>>,
    responseBody: Option<string>,
    cause: JsValue,
    isRetryable: Option<bool>,
    data: JsValue)

  datatype ApiCallError = ApiCallError(
    name: string,
    message: string,
    url: string,
    requestBodyValues: JsValue,
    statusCode: Option<int>,
    responseHeaders: Option<map<string, string>>,
    responseBody: Option<string>,
    cause: JsValue,
    isRetryable: bool,
    data: JsValue)

  /** The default of `isRetryable`: timeouts, conflicts, rate limits and server errors. */
  predicate DefaultIsRetryable(statusCode: Option<int>) {
    statusCode.Some? &&
      (statusCode.value == 408 || statusCode.value == 409 || statusCode.value == 429 || statusCode.value >= 500)
  }

  /** The default by ranges of status codes: nothing below 400, three codes in the 4xx range, everything from 500. */
  lemma DefaultIsRetryableByRange(statusCode: Option<int>)
    ensures statusCode.None? ==> !DefaultIsRetryable(statusCode)
    ensures statusCode.Some? && statusCode.value < 400 ==> !DefaultIsRetryable(statusCode)
    ensures statusCode.Some? && 400 <= statusCode.value < 500 ==>
      (DefaultIsRetryable(statusCode) <==> statusCode.value in {408, 409, 429})
    ensures statusCode.Some? && statusCode.value >= 500 ==> DefaultIsRetryable(statusCode)
    ensures !DefaultIsRetryable(Some(400)) && !DefaultIsRetryable(Some(404))
  {
  }

  /** The constructor: the fixed name, every argument stored unchanged, and `isRetryable` defaulted from the status code. */
  function New(args: Args): (e: ApiCallError)
    ensures e.name == Name
    ensures e.message == args.message && e.url == args.url && e.requestBodyValues == args.requestBodyValues
    ensures e.statusCode == args.statusCode && e.responseHeaders == args.responseHeaders
    ensures e.responseBody == args.responseBody && e.cause == args.cause && e.data == args.data
    ensures args.isRetryable.Some? ==> e.isRetryable == args.isRetryable.value
    ensures args.isRetryable.None? ==> (e.isRetryable <==> DefaultIsRetryable(args.statusCode))
  {
    ApiCallError(
      Name, args.message, args.url, args.requestBodyValues, args.statusCode,
      args.responseHeaders, args.responseBody, args.cause,
      args.isRetryable.GetOr(DefaultIsRetryable(args.statusCode)),
      args.data)
  }

  function OptHeaders(h: Option<map<string, string>>): (v: JsValue)
    ensures h.None? <==> v == Undefined
  {
    match h
    case None => Undefined
    case Some(m) => StringRecord(m)
  }

  /** The ten fields, by property name, as they appear on the object and in `toJSON`. */
  function Fields(e: ApiCallError): (fields: map<string, JsValue>)
    ensures fields.Keys == {"name", "message", "url", "requestBodyValues", "statusCode",
                            "responseHeaders", "responseBody", "cause", "isRetryable", "data"}
  {
    map[
      "message" := Str(e.message),
      "statusCode" := OptNum(e.statusCode),
      "responseHeaders" := OptHeaders(e.responseHeaders),
      "responseBody" := OptStr(e.responseBody),
      "isRetryable" := Bool(e.isRetryable),
      "url" := Str(e.url),
      "data" := e.data,
      "cause" := e.cause,
      "requestBodyValues" := e.requestBodyValues,
      "name" := Str(e.name)]
  }

  /** The error as a JavaScript object: an `Error`, carrying the marker symbol set to `true`. */
  function ToObject(e: ApiCallError): (v: JsValue)
    ensures v.Obj? && {"Error", "AISDKError", "APICallError"} <= v.o.classes
    ensures v.o.symbols == map[Marker := Bool(true)]
  {
    Obj(JsObject({"Error", "AISDKError", "APICallError"}, Fields(e), map[Marker := Bool(true)]))
  }

  /** `toJSON()`: a plain object holding exactly the ten stored fields. */
  function ToJSON(e: ApiCallError): (j: JsObject)
    ensures j.props.Keys == Fields(e).Keys && j.symbols == map[]
  {
    JsObject({"Object"}, Fields(e), map[])
  }

  /** Reads a `Record<string, string>` back; any non-string value makes it unreadable. */
  function ReadHeaders(v: JsValue): Option<Option<map<string, string>>> {
    if v.Undefined? then Some(None)
    else if v.Obj? && forall k :: k in v.o.props ==> v.o.props[k].Str? then
      Some(Some(map k | k in v.o.props :: v.o.props[k].s))
    else None
  }

  /** Reads the fields of a `toJSON()` result back into an error, when they have the declared types. */
  function FromJSON(j: JsObject): Option<ApiCallError> {
    var name := Get(j, "name");
    var message := Get(j, "message");
    var url := Get(j, "url");
    var statusCode := Get(j, "statusCode");
    var headers := ReadHeaders(Get(j, "responseHeaders"));
    var body := Get(j, "responseBody");
    var retryable := Get(j, "isRetryable");
    if name.Str? && message.Str? && url.Str? && (statusCode.Undefined? || statusCode.Num?)
      && headers.Some? && (body.Undefined? || body.Str?) && retryable.Bool?
    then
      Some(ApiCallError(
        name.s, message.s, url.s, Get(j, "requestBodyValues"),
        if statusCode.Num? then Some(statusCode.n) else None,
        headers.value,
        if body.Str? then Some(body.s) else None,
        Get(j, "cause"), retryable.b, Get(j, "data")))
    else None
  }

  lemma HeadersRoundTrip(h: Option<map<string, string>>)
    ensures ReadHeaders(OptHeaders(h)) == Some(h)
  {
    if h.Some? {
      var v := OptHeaders(h);
      var back := map k | k in v.o.props :: v.o.props[k].s;
      assert back == h.value;
    }
  }

  /** `toJSON()` loses nothing: every stored field can be read back with its stored value. */
  lemma ToJSONRoundTrip(e: ApiCallError)
    ensures FromJSON(ToJSON(e)) == Some(e)
  {
    HeadersRoundTrip(e.responseHeaders);
  }

  /** `APICallError.isInstance`: an instance of the class, or any object whose marker property is the boolean `true`. */
  predicate IsInstance(v: JsValue) {
    !IsNullish(v) &&
      (InstanceOf(v, "APICallError") ||
        (TypeOf(v) == "object" && Marker in v.o.symbols
          && TypeOf(v.o.symbols[Marker]) == "boolean" && v.o.symbols[Marker] == Bool(true)))
  }

  /** `isInstance` accepts exactly the class's instances and the objects marked `true`; `null` and `undefined` never. */
  lemma IsInstanceIff(v: JsValue)
    ensures IsInstance(v) <==>
      v.Obj? && ("APICallError" in v.o.classes || (Marker in v.o.symbols && v.o.symbols[Marker] == Bool(true)))
    ensures IsNullish(v) ==> !IsInstance(v)
  {
  }

  /** Every constructed error is recognised, whether by class or by marker. */
  lemma ConstructedIsInstance(args: Args)
    ensures IsInstance(ToObject(New(args)))
    ensures IsInstance(Obj(ToObject(New(args)).o.(classes := {"Object"})))
  {
  }

  /** The deprecated guard `isAPICallError`: a structural check of the name and of every field's type. */
  predicate IsAPICallError(v: JsValue) {
    InstanceOf(v, "Error")
      && Get(v.o, "name") == Str(Name)
      && TypeOf(Get(v.o, "url")) == "string"
      && TypeOf(Get(v.o, "requestBodyValues")) == "object"
      && (IsNullish(Get(v.o, "statusCode")) || TypeOf(Get(v.o, "statusCode")) == "number")
      && (IsNullish(Get(v.o, "responseHeaders")) || TypeOf(Get(v.o, "responseHeaders")) == "object")
      && (IsNullish(Get(v.o, "responseBody")) || TypeOf(Get(v.o, "responseBody")) == "string")
      && (IsNullish(Get(v.o, "cause")) || TypeOf(Get(v.o, "cause")) == "object")
      && TypeOf(Get(v.o, "isRetryable")) == "boolean"
      && (IsNullish(Get(v.o, "data")) || TypeOf(Get(v.o, "data")) == "object")
  }

  /**
   * On constructed errors the deprecated guard holds exactly when the
   * fields typed `unknown` have the shapes it checks: an object (or `null`)
   * for `requestBodyValues`, and nothing or an object for `cause` and `data`.
   */
  lemma DeprecatedGuardOnConstructed(args: Args)
    ensures IsAPICallError(ToObject(New(args))) <==>
      && TypeOf(args.requestBodyValues) == "object"
      && (IsNullish(args.cause) || TypeOf(args.cause) == "object")
      && (IsNullish(args.data) || TypeOf(args.data) == "object")
  {
    var o := ToObject(New(args)).o;
    assert Get(o, "requestBodyValues") == args.requestBodyValues;
    assert Get(o, "cause") == args.cause;
    assert Get(o, "data") == args.data;
  }
}
