/**
 * The chat session of `useChat` (packages/core/react/use-chat.ts): the
 * requests `append`, `reload` and `handleSubmit` build from the history,
 * `triggerRequest` with its error handling and its loop over the
 * function-call handler, and `stop`.
 *
 * The shared state SWR keeps (messages, loading flag, stream data) and the
 * refs (abort controller) become the fields of `ChatSession`; what one call
 * of `triggerRequest` does to them is specified by `Trigger`, and the
 * methods are proved against it.
 */
module UseChat {
  import opened Wrappers
  import opened Json
  import opened ChatStream
  import Seqs

  /** A request: the messages to send and the per-call options; `None` is `undefined`. */
  datatype ChatRequest = ChatRequest(
    messages: seq<Message>,
    options: Option<Json>,
    functions: Option<Json>,
    functionCall: Option<Json>)

  /** The `ChatRequestOptions` argument of `append`, `reload` and `handleSubmit`. */
  datatype RequestOptions = RequestOptions(options: Option<Json>, functions: Option<Json>, functionCall: Option<Json>)

  /** What `fetch` gives back for one request. */
  datatype Response =
    | Rejected(error: JsError)
      /** The response is not `ok`; `text` is its body read as text. */
    | NotOk(text: string)
    | NoBody
      /**
       * A readable body: the decoded line batches, the client's `new Date()`
       * when reading starts, and the line after which `stop` was found to
       * have been called (see `ChatStream.Env`).
       */
    | Streaming(batches: seq<seq<Line>>, createdAt: int, abortAt: Option<nat>)

  /** What `triggerRequest` resolves to: `null`, or `undefined` when it fell through its `catch`. */
  datatype TriggerResult = ReturnedNull | ReturnedUndefined

  /** The user's `experimental_onFunctionCall`: called with the current messages and the parsed call. */
  type FunctionCallHandler = (seq<Message>, Json) -> Result<Option<ChatRequest>, JsError>

  /**
   * What stays fixed for a session: `JSON.parse`, the optional handler,
   * and whether the corrected readings of the findings are used.
   */
  datatype Config = Config(
    parse: string -> Option<Json>,
    handler: Option<FunctionCallHandler>,
    corrected: bool)

  /**
   * The observable state of a session: the messages shown, the input
   * field, the loading flag, the last error, the stream data (`None` while
   * SWR holds `undefined`), whether an abort controller is installed, and
   * logs of the requests handed to `fetch`, of the entries passed to
   * `onFinish` and of the calls passed to the handler.
   */
  datatype Session = Session(
    messages: seq<Message>,
    input: string,
    isLoading: bool,
    error: Option<JsError>,
    streamData: Option<seq<Message>>,
    abortActive: bool,
    sent: seq<ChatRequest>,
    finished: seq<Message>,
    handled: seq<Json>)

  const DefaultFetchError: string := "Failed to fetch the chat response."
  const EmptyBodyError: string := "The response body is empty."
  const NotIterable: JsError := JsError("TypeError", "streamData is not iterable")

  // ---------------------------------------------------------------------------
  // Building requests
  // ---------------------------------------------------------------------------

  function Request(messages: seq<Message>, opts: RequestOptions): ChatRequest {
    ChatRequest(messages, opts.options, opts.functions, opts.functionCall)
  }

  /**
   * `reload`: nothing to send for an empty history; the history without its
   * last message when that message is the assistant's; the whole history
   * otherwise.
   */
  function ReloadRequest(history: seq<Message>, opts: RequestOptions): (r: Option<ChatRequest>)
    ensures r.None? <==> history == []
    ensures r.Some? ==> r.value.options == opts.options && r.value.functions == opts.functions
                        && r.value.functionCall == opts.functionCall
  {
    if |history| == 0 then None
    else if history[|history| - 1].role == Assistant then Some(Request(history[..|history| - 1], opts))
    else Some(Request(history, opts))
  }

  /** `append`: the message, given a fresh id when its id is missing, after the history. */
  function AppendRequest(history: seq<Message>, message: Message, freshId: string, opts: RequestOptions): (r: ChatRequest)
    ensures r.options == opts.options && r.functions == opts.functions && r.functionCall == opts.functionCall
  {
    var m := if message.id == "" then message.(id := freshId) else message;
    Request(history + [m], opts)
  }

  /** The messages `reload` sends, by the role of the last message. */
  lemma ReloadMessages(history: seq<Message>, opts: RequestOptions)
    requires history != []
    ensures history[|history| - 1].role == Assistant ==>
      ReloadRequest(history, opts).value.messages == history[..|history| - 1]
    ensures history[|history| - 1].role != Assistant ==>
      ReloadRequest(history, opts).value.messages == history
    ensures |ReloadRequest(history, opts).value.messages| >= |history| - 1
  {
  }

  /**
   * Reloading after an assistant reply asks again for that reply: the
   * request is the one that was answered.
   */
  lemma ReloadAfterReply(history: seq<Message>, reply: Message, opts: RequestOptions)
    requires reply.role == Assistant
    ensures ReloadRequest(history + [reply], opts) == Some(Request(history, opts))
  {
    assert (history + [reply])[..|history + [reply]| - 1] == history;
  }

  /**
   * `append` keeps the history as a prefix and adds exactly one message,
   * which is the given one except that a missing id is replaced.
   */
  lemma AppendMessages(history: seq<Message>, message: Message, freshId: string, opts: RequestOptions)
    ensures var ms := AppendRequest(history, message, freshId, opts).messages;
      && |ms| == |history| + 1
      && ms[..|history|] == history
      && ms[|history|].role == message.role && ms[|history|].content == message.content
      && ms[|history|].createdAt == message.createdAt && ms[|history|].functionCall == message.functionCall
      && ms[|history|].id == (if message.id == "" then freshId else message.id)
  {
    var ms := AppendRequest(history, message, freshId, opts).messages;
    assert ms[..|history|] == history;
  }

  /** The user message `handleSubmit` appends for the current input. */
  function SubmittedMessage(input: string, createdAt: int): Message {
    Message("", User, input, Some(createdAt), NoCall, None)
  }

  // ---------------------------------------------------------------------------
  // One request
  // ---------------------------------------------------------------------------

  /** What one call of `getStreamedResponse` leaves: the messages shown, the `onFinish` calls, and the outcome. */
  datatype Fetched = Fetched(shown: seq<Message>, finished: seq<Message>, stopped: bool, result: Result<StreamedResponse, JsError>)

  /**
   * `getStreamedResponse`: the request's messages are shown at once; a
   * rejected fetch or a response that is not `ok` restores the messages
   * shown before and throws; a missing body throws without restoring;
   * otherwise the stream is read (see `ChatStream.Streamed`) and the last
   * snapshot published stays shown.
   */
  function Fetch(cfg: Config, previous: seq<Message>, req: ChatRequest, resp: Response, idSource: nat -> string): Fetched {
    match resp
    case Rejected(e) => Fetched(previous, [], false, Err(e))
    case NotOk(text) => Fetched(previous, [], false, Err(JsError("Error", if text == "" then DefaultFetchError else text)))
    case NoBody => Fetched(req.messages, [], false, Err(JsError("Error", EmptyBodyError)))
    case Streaming(batches, createdAt, abortAt) =>
      var env := Env(req.messages, createdAt, idSource, cfg.parse, abortAt, cfg.corrected);
      var out := Streamed(env, batches);
      var fold := MergeAll(env, Flatten(batches));
      Fetched(if out.published == [] then req.messages else out.published[|out.published| - 1],
              out.finished, fold.status.Stopped?, out.result)
  }

  /**
   * `mutateStreamData([...data, ...streamData])` as written: spreading a
   * stream data that SWR still holds as `undefined` throws.
   */
  function MergeStreamDataAsWritten(data: seq<Message>, streamData: Option<seq<Message>>): (r: Result<seq<Message>, JsError>)
    ensures r.Err? <==> streamData.None?
    ensures r.Ok? ==> r.value == data + streamData.value
  {
    match streamData
    case None => Err(NotIterable)
    case Some(earlier) => Ok(data + earlier)
  }

  /** The corrected merge: missing stream data counts as none. */
  function MergeStreamDataIntended(data: seq<Message>, streamData: Option<seq<Message>>): (r: seq<Message>)
    ensures |r| == |data| + |streamData.GetOr([])|
    ensures r[..|data|] == data && r[|data|..] == streamData.GetOr([])
  {
    data + streamData.GetOr([])
  }

  function MergeStreamData(corrected: bool, data: seq<Message>, streamData: Option<seq<Message>>): Result<seq<Message>, JsError> {
    if corrected then Ok(MergeStreamDataIntended(data, streamData)) else MergeStreamDataAsWritten(data, streamData)
  }

  /** How the loop over the streamed messages went: the calls handed to the handler, and what it threw, if anything. */
  datatype HandlerRun = HandlerRun(calls: seq<Json>, failure: Option<JsError>)

  /** Whether the loop stops at this message: a missing call, or one that is (still) a string. */
  predicate EndsHandling(m: Message) {
    match m.functionCall
    case NoCall => true
    case RawCall(_) => true
    case ParsedCall(j) => j.JStr?
  }

  /**
   * Lines 320-350: the streamed messages in order; the loop ends at the
   * first message without a parsed call, after a handler that returns
   * nothing, or when the handler throws. A returned request only replaces
   * the local `chatRequest`, which nothing reads afterwards.
   */
  function HandleCalls(ms: seq<Message>, current: seq<Message>, handler: Option<FunctionCallHandler>): HandlerRun
    decreases |ms|
  {
    if ms == [] || EndsHandling(ms[0]) then HandlerRun([], None)
    else if handler.None? then HandleCalls(ms[1..], current, handler)
    else
      var call := ms[0].functionCall.value;
      match handler.value(current, call)
      case Err(e) => HandlerRun([call], Some(e))
      case Ok(None) => HandlerRun([call], None)
      case Ok(Some(_)) =>
        var rest := HandleCalls(ms[1..], current, handler);
        HandlerRun([call] + rest.calls, rest.failure)
  }

  /**
   * The `catch` of `triggerRequest`: an `AbortError` clears the abort
   * controller and resolves to `null`; any other error is stored, and the
   * promise resolves to `undefined`. Either way loading ends.
   */
  function Catch(s: Session, e: JsError): (Session, TriggerResult) {
    if e.name == "AbortError" then (s.(abortActive := false, isLoading := false), ReturnedNull)
    else (s.(error := Some(e), isLoading := false), ReturnedUndefined)
  }

  /**
   * What `triggerRequest` makes of the outcome of `getStreamedResponse`:
   * the request is logged as sent; on success the stream data is merged
   * and the handler loop runs; every error goes to the `catch`.
   */
  function Settle(cfg: Config, s: Session, req: ChatRequest, f: Fetched): (Session, TriggerResult) {
    var s1 := s.(sent := s.sent + [req], messages := f.shown, finished := s.finished + f.finished,
                 abortActive := !f.stopped, isLoading := true);
    match f.result
    case Err(e) => Catch(s1, e)
    case Ok(r) =>
      match MergeStreamData(cfg.corrected, r.data, s.streamData)
      case Err(e) => Catch(s1, e)
      case Ok(d) =>
        var run := HandleCalls(r.messages, s1.messages, cfg.handler);
        var s2 := s1.(streamData := Some(d), handled := s.handled + run.calls);
        match run.failure
        case Some(e) => Catch(s2, e)
        case None => (s2.(abortActive := false, isLoading := false), ReturnedNull)
  }

  /** The reference definition of `triggerRequest` (lines 298-370). */
  function Trigger(cfg: Config, s: Session, req: ChatRequest, resp: Response, idSource: nat -> string): (Session, TriggerResult) {
    Settle(cfg, s, req, Fetch(cfg, s.messages, req, resp, idSource))
  }

  // ---------------------------------------------------------------------------
  // Properties of one request
  // ---------------------------------------------------------------------------

  /**
   * Every call hands exactly one request to `fetch`, and loading has ended
   * when it returns; the input and the earlier logs are untouched, the
   * messages shown are the ones the response left, and the `onFinish`
   * calls are logged.
   */
  lemma SettleSendsOnce(cfg: Config, s: Session, req: ChatRequest, f: Fetched)
    ensures var t := Settle(cfg, s, req, f).0;
      && t.sent == s.sent + [req]
      && !t.isLoading
      && t.input == s.input
      && t.messages == f.shown
      && t.finished == s.finished + f.finished
      && t.handled[..|s.handled|] == s.handled
  {
    Seqs.SliceAll(s.handled);
    if f.result.Ok? {
      Seqs.PrefixOfConcat(s.handled, HandleCalls(f.result.value.messages, f.shown, cfg.handler).calls);
    }
  }

  /**
   * The outcome of a failed `getStreamedResponse`: an `AbortError` resolves
   * to `null` and leaves the error as it was; any other error is stored and
   * resolves to `undefined`. The stream data and the handler log are untouched.
   */
  lemma SettleFailure(cfg: Config, s: Session, req: ChatRequest, f: Fetched)
    requires f.result.Err?
    ensures var (t, r) := Settle(cfg, s, req, f);
      && t.streamData == s.streamData && t.handled == s.handled
      && (f.result.error.name == "AbortError" ==> r == ReturnedNull && t.error == s.error && !t.abortActive)
      && (f.result.error.name != "AbortError" ==>
            r == ReturnedUndefined && t.error == Some(f.result.error) && t.abortActive == !f.stopped)
  {
  }

  /**
   * The outcome of a successful `getStreamedResponse` with stream data
   * present: the response's data entries come before the earlier stream
   * data, the error is left as it was, and unless the handler threw, the
   * promise resolves to `null` with the abort controller cleared.
   */
  lemma SettleSuccess(cfg: Config, s: Session, req: ChatRequest, f: Fetched)
    requires f.result.Ok? && s.streamData.Some?
    ensures var (t, r) := Settle(cfg, s, req, f);
      && t.streamData == Some(f.result.value.data + s.streamData.value)
      && (HandleCalls(f.result.value.messages, f.shown, cfg.handler).failure.None? ==>
            r == ReturnedNull && t.error == s.error && !t.abortActive)
  {
  }

  /** Every call hands exactly one request to `fetch`, and loading has ended when it returns. */
  lemma TriggerSendsOnce(cfg: Config, s: Session, req: ChatRequest, resp: Response, idSource: nat -> string)
    ensures var t := Trigger(cfg, s, req, resp, idSource).0;
      && t.sent == s.sent + [req]
      && !t.isLoading
      && t.input == s.input
      && t.finished[..|s.finished|] == s.finished
      && t.handled[..|s.handled|] == s.handled
  {
    var f := Fetch(cfg, s.messages, req, resp, idSource);
    SettleSendsOnce(cfg, s, req, f);
    Seqs.PrefixOfConcat(s.finished, f.finished);
  }

  /** The outcome of a streamed response is the one `ChatStream.Streamed` defines. */
  lemma FetchStreaming(cfg: Config, previous: seq<Message>, req: ChatRequest, batches: seq<seq<Line>>, createdAt: int,
                       abortAt: Option<nat>, idSource: nat -> string)
    ensures var env := Env(req.messages, createdAt, idSource, cfg.parse, abortAt, cfg.corrected);
      var out := Streamed(env, batches);
      var f := Fetch(cfg, previous, req, Streaming(batches, createdAt, abortAt), idSource);
      && f.finished == out.finished && f.result == out.result
      && (out.published != [] ==> f.shown == out.published[|out.published| - 1])
      && (out.published == [] ==> f.shown == req.messages)
  {
  }

  /**
   * A request aborted before it was answered (`fetch` rejects with an
   * `AbortError`) resolves to `null`, restores the messages shown before,
   * clears the abort controller and leaves the error as it was.
   */
  lemma AbortErrorIsQuiet(cfg: Config, s: Session, req: ChatRequest, message: string, idSource: nat -> string)
    ensures var (t, r) := Trigger(cfg, s, req, Rejected(JsError("AbortError", message)), idSource);
      && r == ReturnedNull
      && t.error == s.error
      && t.messages == s.messages
      && !t.abortActive
  {
    var f := Fetch(cfg, s.messages, req, Rejected(JsError("AbortError", message)), idSource);
    SettleSendsOnce(cfg, s, req, f);
    SettleFailure(cfg, s, req, f);
  }

  /**
   * Any other rejection, and a response that is not `ok`, restore the
   * messages shown before and store the error; the error of a response
   * that is not `ok` carries its body text, or a fixed message when that
   * is empty.
   */
  lemma FailedRequestRestores(cfg: Config, s: Session, req: ChatRequest, resp: Response, idSource: nat -> string)
    requires resp.NotOk? || (resp.Rejected? && resp.error.name != "AbortError")
    ensures var (t, r) := Trigger(cfg, s, req, resp, idSource);
      && r == ReturnedUndefined
      && t.messages == s.messages
      && t.error.Some?
      && (resp.Rejected? ==> t.error == Some(resp.error))
      && (resp.NotOk? ==> t.error.value.message == (if resp.text == "" then DefaultFetchError else resp.text))
      && t.streamData == s.streamData && t.handled == s.handled
  {
    var f := Fetch(cfg, s.messages, req, resp, idSource);
    SettleSendsOnce(cfg, s, req, f);
    SettleFailure(cfg, s, req, f);
  }

  /** A response without a body keeps the request's messages shown and stores the error. */
  lemma EmptyBodyKeepsRequest(cfg: Config, s: Session, req: ChatRequest, idSource: nat -> string)
    ensures var (t, r) := Trigger(cfg, s, req, NoBody, idSource);
      && r == ReturnedUndefined
      && t.messages == req.messages
      && t.error == Some(JsError("Error", EmptyBodyError))
  {
    var f := Fetch(cfg, s.messages, req, NoBody, idSource);
    SettleSendsOnce(cfg, s, req, f);
    SettleFailure(cfg, s, req, f);
  }

  /**
   * A stream read to the end whose final pass succeeds, with stream data
   * present: the last snapshot stays shown, the response's data entries
   * come before the earlier stream data, the error is left as it was, and
   * the promise resolves to `null` unless the handler threw.
   */
  lemma StreamedSuccess(cfg: Config, s: Session, req: ChatRequest, batches: seq<seq<Line>>, createdAt: int,
                        abortAt: Option<nat>, idSource: nat -> string)
    requires s.streamData.Some?
    requires var env := Env(req.messages, createdAt, idSource, cfg.parse, abortAt, cfg.corrected);
      Streamed(env, batches).result.Ok?
    ensures var env := Env(req.messages, createdAt, idSource, cfg.parse, abortAt, cfg.corrected);
      var out := Streamed(env, batches);
      var (t, r) := Trigger(cfg, s, req, Streaming(batches, createdAt, abortAt), idSource);
      && t.streamData == Some(out.result.value.data + s.streamData.value)
      && t.finished == s.finished + out.finished
      && (out.published != [] ==> t.messages == out.published[|out.published| - 1])
      && (HandleCalls(out.result.value.messages, t.messages, cfg.handler).failure.None? ==>
            r == ReturnedNull && t.error == s.error && !t.abortActive)
  {
    var f := Fetch(cfg, s.messages, req, Streaming(batches, createdAt, abortAt), idSource);
    FetchStreaming(cfg, s.messages, req, batches, createdAt, abortAt, idSource);
    SettleSendsOnce(cfg, s, req, f);
    SettleSuccess(cfg, s, req, f);
  }

  /** Without a handler no call is handed anywhere and the loop cannot throw. */
  lemma {:induction false} NoHandlerNoCalls(ms: seq<Message>, current: seq<Message>)
    ensures HandleCalls(ms, current, None) == HandlerRun([], None)
    decreases |ms|
  {
    if ms != [] && !EndsHandling(ms[0]) {
      NoHandlerNoCalls(ms[1..], current);
    }
  }

  /**
   * The handler sees the parsed calls of the leading messages in order:
   * every call handed over is the parsed call of the message at the same
   * position, and it stops at the first message that ends the loop.
   */
  lemma {:induction false} HandledCallsInOrder(ms: seq<Message>, current: seq<Message>, handler: Option<FunctionCallHandler>)
    ensures var run := HandleCalls(ms, current, handler);
      && |run.calls| <= |ms|
      && (forall i :: 0 <= i < |run.calls| ==>
            !EndsHandling(ms[i]) && ms[i].functionCall == ParsedCall(run.calls[i]))
    decreases |ms|
  {
    if handler.None? {
      NoHandlerNoCalls(ms, current);
    } else if ms != [] && !EndsHandling(ms[0]) {
      HandledCallsInOrder(ms[1..], current, handler);
      var run := HandleCalls(ms, current, handler);
      var rest := HandleCalls(ms[1..], current, handler);
      forall i | 0 <= i < |run.calls|
        ensures !EndsHandling(ms[i]) && ms[i].functionCall == ParsedCall(run.calls[i])
      {
        if i > 0 {
          assert run.calls[i] == rest.calls[i - 1];
        }
      }
    }
  }

  /**
   * As written, a successful response whose session has no stream data yet
   * (SWR holds `undefined` until the first merge) fails with a `TypeError`:
   * the error is stored, the handler is never reached and the promise
   * resolves to `undefined`.
   */
  lemma AsWrittenMissingStreamData(cfg: Config, s: Session, req: ChatRequest, batches: seq<seq<Line>>, createdAt: int,
                                   abortAt: Option<nat>, idSource: nat -> string)
    requires !cfg.corrected && s.streamData.None?
    requires Streamed(Env(req.messages, createdAt, idSource, cfg.parse, abortAt, cfg.corrected), batches).result.Ok?
    ensures var (t, r) := Trigger(cfg, s, req, Streaming(batches, createdAt, abortAt), idSource);
      && t.error == Some(NotIterable) && r == ReturnedUndefined
      && t.handled == s.handled && t.streamData.None?
  {
    var f := Fetch(cfg, s.messages, req, Streaming(batches, createdAt, abortAt), idSource);
    FetchStreaming(cfg, s.messages, req, batches, createdAt, abortAt, idSource);
    assert f.result.Ok?;
  }

  /**
   * With missing stream data counted as none, the same response succeeds:
   * the stream data becomes exactly the response's data entries.
   */
  lemma IntendedMissingStreamData(cfg: Config, s: Session, req: ChatRequest, batches: seq<seq<Line>>, createdAt: int,
                                  abortAt: Option<nat>, idSource: nat -> string)
    requires cfg.corrected && s.streamData.None?
    requires Streamed(Env(req.messages, createdAt, idSource, cfg.parse, abortAt, cfg.corrected), batches).result.Ok?
    ensures var out := Streamed(Env(req.messages, createdAt, idSource, cfg.parse, abortAt, cfg.corrected), batches);
      var (t, r) := Trigger(cfg, s, req, Streaming(batches, createdAt, abortAt), idSource);
      && t.streamData == Some(out.result.value.data)
      && (HandleCalls(out.result.value.messages, t.messages, cfg.handler).failure.None? ==>
            r == ReturnedNull && t.error == s.error)
  {
    var out := Streamed(Env(req.messages, createdAt, idSource, cfg.parse, abortAt, cfg.corrected), batches);
    var f := Fetch(cfg, s.messages, req, Streaming(batches, createdAt, abortAt), idSource);
    FetchStreaming(cfg, s.messages, req, batches, createdAt, abortAt, idSource);
    SettleSendsOnce(cfg, s, req, f);
    assert out.result.value.data + [] == out.result.value.data;
  }

  // ---------------------------------------------------------------------------
  // The session
  // ---------------------------------------------------------------------------

  /** The loop over the streamed messages, lines 320-350. */
  method RunHandlers(ms: seq<Message>, current: seq<Message>, handler: Option<FunctionCallHandler>) returns (run: HandlerRun)
    ensures run == HandleCalls(ms, current, handler)
  {
    var calls: seq<Json> := [];
    var i := 0;
    while i < |ms|
      invariant 0 <= i <= |ms|
      invariant HandleCalls(ms, current, handler) ==
        HandlerRun(calls + HandleCalls(ms[i..], current, handler).calls, HandleCalls(ms[i..], current, handler).failure)
    {
      var message := ms[i];
      assert ms[i..][0] == message && ms[i..][1..] == ms[i + 1..];
      if EndsHandling(message) {
        break;
      }
      if handler.Some? {
        var call := message.functionCall.value;
        var reply := handler.value(current, call);
        if reply.Err? {
          return HandlerRun(calls + [call], Some(reply.error));
        }
        if reply.value.None? {
          return HandlerRun(calls + [call], None);
        }
        calls := calls + [call];
      }
      i := i + 1;
    }
    if i == |ms| {
      assert ms[i..] == [];
    }
    return HandlerRun(calls, None);
  }

  class ChatSession {
    var messages: seq<Message>
    var input: string
    var isLoading: bool
    var error: Option<JsError>
    var streamData: Option<seq<Message>>
    var abortActive: bool
    var sent: seq<ChatRequest>
    var finished: seq<Message>
    var handled: seq<Json>
    const cfg: Config

    function State(): Session
      reads this
    {
      Session(messages, input, isLoading, error, streamData, abortActive, sent, finished, handled)
    }

    /** A session as `useChat` starts it: the initial messages and input, nothing loading, no stream data. */
    constructor (cfg: Config, initialMessages: seq<Message>, initialInput: string)
      ensures this.cfg == cfg
      ensures State() == Session(initialMessages, initialInput, false, None, None, false, [], [], [])
    {
      this.cfg := cfg;
      messages := initialMessages;
      input := initialInput;
      isLoading := false;
      error := None;
      streamData := None;
      abortActive := false;
      sent := [];
      finished := [];
      handled := [];
    }

    /** Applies the outcome of `triggerRequest` to the fields. */
    method Commit(t: Session)
      modifies this
      ensures State() == t
    {
      messages, input, isLoading, error, streamData := t.messages, t.input, t.isLoading, t.error, t.streamData;
      abortActive, sent, finished, handled := t.abortActive, t.sent, t.finished, t.handled;
    }

    /** `triggerRequest`. */
    method TriggerRequest(req: ChatRequest, resp: Response, idSource: nat -> string) returns (r: TriggerResult)
      modifies this
      ensures (State(), r) == Trigger(cfg, old(State()), req, resp, idSource)
    {
      var s := State();
      var previous := messages;
      var shown: seq<Message>;
      var result: Result<StreamedResponse, JsError>;
      var finishedNow: seq<Message> := [];
      var stopped := false;
      match resp {
        case Rejected(e) =>
          shown, result := previous, Err(e);
        case NotOk(text) =>
          shown, result := previous, Err(JsError("Error", if text == "" then DefaultFetchError else text));
        case NoBody =>
          shown, result := req.messages, Err(JsError("Error", EmptyBodyError));
        case Streaming(batches, createdAt, abortAt) =>
          var env := Env(req.messages, createdAt, idSource, cfg.parse, abortAt, cfg.corrected);
          var fold := ReadAll(env, batches);
          var out: Outcome;
          if fold.status.Failed? {
            out := Outcome(fold.published, [], Err(fold.status.error));
          } else {
            var fin := FinalizeEntries(env, fold.order, fold.entries);
            out := Outcome(fold.published, fin.finished, fin.result);
          }
          shown := if out.published == [] then req.messages else out.published[|out.published| - 1];
          finishedNow, stopped, result := out.finished, fold.status.Stopped?, out.result;
      }
      assert Fetch(cfg, s.messages, req, resp, idSource) == Fetched(shown, finishedNow, stopped, result);
      var s1 := s.(sent := s.sent + [req], messages := shown, finished := s.finished + finishedNow,
                   abortActive := !stopped, isLoading := true);
      Commit(s1);
      if result.Err? {
        var c := Catch(s1, result.error);
        Commit(c.0);
        return c.1;
      }
      var merged := MergeStreamData(cfg.corrected, result.value.data, s.streamData);
      if merged.Err? {
        var c := Catch(s1, merged.error);
        Commit(c.0);
        return c.1;
      }
      var run := RunHandlers(result.value.messages, shown, cfg.handler);
      var s2 := s1.(streamData := Some(merged.value), handled := s.handled + run.calls);
      if run.failure.Some? {
        var c := Catch(s2, run.failure.value);
        Commit(c.0);
        return c.1;
      }
      Commit(s2.(abortActive := false, isLoading := false));
      return ReturnedNull;
    }

    /** `append` (lines 372-391): sends the history with the message added. */
    method Append(message: Message, opts: RequestOptions, freshId: string, resp: Response, idSource: nat -> string)
      returns (r: TriggerResult)
      modifies this
      ensures (State(), r) == Trigger(cfg, old(State()), AppendRequest(old(messages), message, freshId, opts), resp, idSource)
    {
      r := TriggerRequest(AppendRequest(messages, message, freshId, opts), resp, idSource);
    }

    /** `reload` (lines 393-420): nothing for an empty history, otherwise the request `ReloadRequest` builds. */
    method Reload(opts: RequestOptions, resp: Response, idSource: nat -> string) returns (r: TriggerResult)
      modifies this
      ensures old(messages) == [] ==> r == ReturnedNull && State() == old(State())
      ensures old(messages) != [] ==>
        (State(), r) == Trigger(cfg, old(State()), ReloadRequest(old(messages), opts).value, resp, idSource)
    {
      var req := ReloadRequest(messages, opts);
      if req.None? {
        return ReturnedNull;
      }
      r := TriggerRequest(req.value, resp, idSource);
    }

    /** `stop` (lines 422-427): the abort controller is cleared; nothing else changes. */
    method Stop()
      modifies this
      ensures State() == old(State()).(abortActive := false)
    {
      abortActive := false;
    }

    /**
     * `handleSubmit` (lines 440-467): with an empty input nothing happens;
     * otherwise the input is appended as a user message and then cleared.
     */
    method HandleSubmit(opts: RequestOptions, createdAt: int, freshId: string, resp: Response, idSource: nat -> string)
      modifies this
      ensures old(input) == "" ==> State() == old(State())
      ensures old(input) != "" ==>
        State() == Trigger(cfg, old(State()),
                           AppendRequest(old(messages), SubmittedMessage(old(input), createdAt), freshId, opts),
                           resp, idSource).0.(input := "")
    {
      if input == "" {
        return;
      }
      var _ := Append(SubmittedMessage(input, createdAt), opts, freshId, resp, idSource);
      input := "";
    }
  }

  /** A submitted input reaches the server as the last message of the request, from the user, with a fresh id. */
  lemma SubmitSendsInput(cfg: Config, s: Session, opts: RequestOptions, createdAt: int, freshId: string,
                         resp: Response, idSource: nat -> string)
    requires s.input != ""
    ensures var req := AppendRequest(s.messages, SubmittedMessage(s.input, createdAt), freshId, opts);
      var t := Trigger(cfg, s, req, resp, idSource).0;
      && t.sent == s.sent + [req]
      && req.messages[..|s.messages|] == s.messages
      && req.messages[|req.messages| - 1] == Message(freshId, User, s.input, Some(createdAt), NoCall, None)
  {
    TriggerSendsOnce(cfg, s, AppendRequest(s.messages, SubmittedMessage(s.input, createdAt), freshId, opts), resp, idSource);
    AppendMessages(s.messages, SubmittedMessage(s.input, createdAt), freshId, opts);
  }
}
