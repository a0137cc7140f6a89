/**
 * The OpenAI chat-completion stream as the server side re-encodes it
 * (packages/core/streams/openai-stream.ts): each provider delta becomes one
 * string fragment, and a function call is spelled out as the text of a JSON
 * object, `{"function_call": {"name": "<name>", "arguments": "<escaped>"}}`,
 * whose pieces arrive as separate fragments. An optional transformer buffers
 * such a call until it is complete and hands it to `onFunctionCall`.
 */
module OpenAIStream {
  import opened Wrappers
  import opened Json
  import Seqs

  // ---------------------------------------------------------------------------
  // Provider deltas: only the fields `parseOpenAIStream` reads.
  // ---------------------------------------------------------------------------

  datatype FunctionCallDelta = FunctionCallDelta(name: Option<string>, arguments: Option<string>)
  datatype Delta = Delta(content: Option<string>, functionCall: Option<FunctionCallDelta>)
  datatype Choice = Choice(delta: Option<Delta>, text: Option<string>, finishReason: Option<string>)
  /** One parsed `data:` payload of the provider stream. */
  datatype Chunk = Chunk(choices: seq<Choice>)

  /** `json.choices[0]?.delta?.function_call?.name`, with `undefined` as `None`. */
  function CallName(c: Chunk): Option<string> {
    if |c.choices| == 0 || c.choices[0].delta.None? || c.choices[0].delta.value.functionCall.None? then None
    else c.choices[0].delta.value.functionCall.value.name
  }

  /** `json.choices[0]?.delta?.function_call?.arguments`. */
  function CallArguments(c: Chunk): Option<string> {
    if |c.choices| == 0 || c.choices[0].delta.None? || c.choices[0].delta.value.functionCall.None? then None
    else c.choices[0].delta.value.functionCall.value.arguments
  }

  /** `json.choices[0]?.finish_reason`. */
  function FinishReason(c: Chunk): Option<string> {
    if |c.choices| == 0 then None else c.choices[0].finishReason
  }

  /** `json.choices[0]?.delta?.content ?? json.choices[0]?.text ?? ''`. */
  function PlainText(c: Chunk): string {
    if |c.choices| == 0 then ""
    else if c.choices[0].delta.Some? && c.choices[0].delta.value.content.Some? then c.choices[0].delta.value.content.value
    else c.choices[0].text.GetOr("")
  }

  /** A JavaScript string is truthy exactly when it is present and non-empty. */
  predicate Present(s: Option<string>) {
    s.Some? && s.value != ""
  }

  // ---------------------------------------------------------------------------
  // Branch selection of `parseOpenAIStream`.
  // ---------------------------------------------------------------------------

  /**
   * What a delta is turned into: the header opening a function call, an
   * argument fragment (escaped when rendered), the closer of the call, or
   * plain text (which the stream then passes through `trimStartOfStream`).
   */
  datatype Fragment = Header(name: string) | Arguments(raw: string) | Closer | Text(raw: string)

  function Classify(c: Chunk): (f: Fragment)
    ensures f.Header? ==> CallName(c) == Some(f.name)
    ensures f.Arguments? ==> CallArguments(c) == Some(f.raw)
    ensures f.Text? ==> f.raw == PlainText(c)
  {
    if Present(CallName(c)) then Header(CallName(c).value)
    else if Present(CallArguments(c)) then Arguments(CallArguments(c).value)
    else if FinishReason(c) == Some("function_call") then Closer
    else Text(PlainText(c))
  }

  /** The branches are tried in a fixed order: name, then arguments, then the finish reason, then text. */
  lemma BranchPriority(c: Chunk)
    ensures Classify(c).Header? <==> Present(CallName(c))
    ensures Classify(c).Arguments? <==> !Present(CallName(c)) && Present(CallArguments(c))
    ensures Classify(c).Closer? <==>
      !Present(CallName(c)) && !Present(CallArguments(c)) && FinishReason(c) == Some("function_call")
    ensures Classify(c).Text? <==>
      !Present(CallName(c)) && !Present(CallArguments(c)) && FinishReason(c) != Some("function_call")
  {
  }

  const HeaderPrefix: string := "{\"function_call\": {\"name\": \""
  /** What follows the name inside the header: the name's closing quote, then the `arguments` key. */
  const ArgumentsKey: string := ", \"arguments\": \""
  /** The fragment that closes a function call: the closing quote of `arguments` and two braces. */
  const CloserText: string := "\"}}"

  /** The header is written with the name inserted as it is, without escaping. */
  function HeaderText(name: string): string {
    HeaderPrefix + name + "\"" + ArgumentsKey
  }

  /** The string `parseOpenAIStream` returns; `trim` stands for the stream's `trimStartOfStream`. */
  function Render(f: Fragment, trim: string -> string): string {
    match f
    case Header(name) => HeaderText(name)
    case Arguments(raw) => EscapeChain(raw)
    case Closer => CloserText
    case Text(raw) => trim(raw)
  }

  // ---------------------------------------------------------------------------
  // Argument escaping: the chain of global replacements, and the per-character
  // map it amounts to.
  // ---------------------------------------------------------------------------

  /** `s.replace(/c/g, by)` for a single character `c`. */
  function ReplaceAll(s: string, c: char, replacement: string): string {
    if s == [] then [] else (if s[0] == c then replacement else [s[0]]) + ReplaceAll(s[1..], c, replacement)
  }

  /** The seven replacements in source order, backslash first. */
  function EscapeChain(s: string): string {
    var s1 := ReplaceAll(s, '\\', "\\\\");
    var s2 := ReplaceAll(s1, '/', "\\/");
    var s3 := ReplaceAll(s2, '"', "\\\"");
    var s4 := ReplaceAll(s3, '\n', "\\n");
    var s5 := ReplaceAll(s4, '\r', "\\r");
    var s6 := ReplaceAll(s5, '\t', "\\t");
    ReplaceAll(s6, '\U{000C}', "\\f")
  }

  /** The escape of one character, as a reference definition. */
  function EscapeChar(c: char): (r: string)
    ensures 1 <= |r| <= 2
    ensures |r| == 2 <==> c in "\\/\"\n\r\t\U{000C}"
    ensures |r| == 2 ==> r[0] == '\\' && UnescapeChar(r[1]) == Some(c)
    ensures |r| == 1 ==> r == [c]
  {
    match c
    case '\\' => "\\\\"
    case '/' => "\\/"
    case '"' => "\\\""
    case '\n' => "\\n"
    case '\r' => "\\r"
    case '\t' => "\\t"
    case '\U{000C}' => "\\f"
    case _ => [c]
  }

  /** Escaping as a per-character map. */
  function Escape(s: string): string {
    if s == [] then [] else EscapeChar(s[0]) + Escape(s[1..])
  }

  lemma {:induction false} ReplaceAllConcat(a: string, b: string, c: char, replacement: string)
    ensures ReplaceAll(a + b, c, replacement) == ReplaceAll(a, c, replacement) + ReplaceAll(b, c, replacement)
  {
    if a != [] {
      assert (a + b)[1..] == a[1..] + b;
      ReplaceAllConcat(a[1..], b, c, replacement);
    } else {
      assert a + b == b;
    }
  }

  /** The chain distributes over concatenation, because every step does. */
  lemma EscapeChainConcat(a: string, b: string)
    ensures EscapeChain(a + b) == EscapeChain(a) + EscapeChain(b)
  {
    var a1, b1 := ReplaceAll(a, '\\', "\\\\"), ReplaceAll(b, '\\', "\\\\");
    ReplaceAllConcat(a, b, '\\', "\\\\");
    var a2, b2 := ReplaceAll(a1, '/', "\\/"), ReplaceAll(b1, '/', "\\/");
    ReplaceAllConcat(a1, b1, '/', "\\/");
    var a3, b3 := ReplaceAll(a2, '"', "\\\""), ReplaceAll(b2, '"', "\\\"");
    ReplaceAllConcat(a2, b2, '"', "\\\"");
    var a4, b4 := ReplaceAll(a3, '\n', "\\n"), ReplaceAll(b3, '\n', "\\n");
    ReplaceAllConcat(a3, b3, '\n', "\\n");
    var a5, b5 := ReplaceAll(a4, '\r', "\\r"), ReplaceAll(b4, '\r', "\\r");
    ReplaceAllConcat(a4, b4, '\r', "\\r");
    var a6, b6 := ReplaceAll(a5, '\t', "\\t"), ReplaceAll(b5, '\t', "\\t");
    ReplaceAllConcat(a5, b5, '\t', "\\t");
    ReplaceAllConcat(a6, b6, '\U{000C}', "\\f");
  }

  lemma ReplaceAbsent(s: string, c: char, replacement: string)
    requires c !in s
    ensures ReplaceAll(s, c, replacement) == s
  {
  }

  /** `ReplaceAll` on a text of at most two characters, one character at a time. */
  lemma ReplaceSmall(s: string, c: char, replacement: string)
    requires 1 <= |s| <= 2
    ensures ReplaceAll(s, c, replacement)
         == (if s[0] == c then replacement else [s[0]])
          + (if |s| == 2 then (if s[1] == c then replacement else [s[1]]) else [])
  {
    if |s| == 2 {
      assert s[1..][1..] == [];
    }
  }

  /**
   * On a single character the chain yields that character's escape: no later
   * replacement touches what an earlier one inserted, because backslash is
   * replaced first.
   */
  lemma EscapeChainChar(c: char)
    ensures EscapeChain([c]) == EscapeChar(c)
  {
    if c in "\\/\"\n\r\t\U{000C}" {
      EscapeChainSpecial(c);
    } else {
      ReplaceAbsent([c], '\\', "\\\\");
      ReplaceAbsent([c], '/', "\\/");
      ReplaceAbsent([c], '"', "\\\"");
      ReplaceAbsent([c], '\n', "\\n");
      ReplaceAbsent([c], '\r', "\\r");
      ReplaceAbsent([c], '\t', "\\t");
      ReplaceAbsent([c], '\U{000C}', "\\f");
    }
  }

  /** A special character is replaced by its own step, and the later steps leave the pair alone. */
  lemma EscapeChainSpecial(c: char)
    requires c in "\\/\"\n\r\t\U{000C}"
    ensures EscapeChain([c]) == EscapeChar(c)
  {
    var s1 := ReplaceAll([c], '\\', "\\\\");
    ReplaceSmall([c], '\\', "\\\\");
    var s2 := ReplaceAll(s1, '/', "\\/");
    ReplaceSmall(s1, '/', "\\/");
    var s3 := ReplaceAll(s2, '"', "\\\"");
    ReplaceSmall(s2, '"', "\\\"");
    var s4 := ReplaceAll(s3, '\n', "\\n");
    ReplaceSmall(s3, '\n', "\\n");
    var s5 := ReplaceAll(s4, '\r', "\\r");
    ReplaceSmall(s4, '\r', "\\r");
    var s6 := ReplaceAll(s5, '\t', "\\t");
    ReplaceSmall(s5, '\t', "\\t");
    ReplaceSmall(s6, '\U{000C}', "\\f");
  }

  /** The replacement chain of the source is exactly the per-character escape map. */
  lemma {:induction false} EscapeChainIsEscape(s: string)
    ensures EscapeChain(s) == Escape(s)
  {
    if s != [] {
      assert s == [s[0]] + s[1..];
      EscapeChainConcat([s[0]], s[1..]);
      EscapeChainChar(s[0]);
      EscapeChainIsEscape(s[1..]);
    }
  }

  /** Escaping distributes over concatenation. */
  lemma {:induction false} EscapeConcat(a: string, b: string)
    ensures Escape(a + b) == Escape(a) + Escape(b)
  {
    if a == [] {
      assert a + b == b;
    } else {
      assert (a + b)[1..] == a[1..] + b;
      EscapeConcat(a[1..], b);
    }
  }

  /**
   * Escaped text holds no raw line feed, carriage return, tab or form feed,
   * and every double quote in it is preceded by a backslash.
   */
  lemma {:induction false} EscapeIsSafe(s: string)
    ensures forall i :: 0 <= i < |Escape(s)| ==> Escape(s)[i] !in "\n\r\t\U{000C}"
    ensures forall i :: 0 <= i < |Escape(s)| && Escape(s)[i] == '"' ==> i > 0 && Escape(s)[i - 1] == '\\'
  {
    if s != [] {
      EscapeIsSafe(s[1..]);
      var h := EscapeChar(s[0]);
      assert Escape(s) == h + Escape(s[1..]);
      forall i | 0 <= i < |Escape(s)|
        ensures Escape(s)[i] !in "\n\r\t\U{000C}"
        ensures Escape(s)[i] == '"' ==> i > 0 && Escape(s)[i - 1] == '\\'
      {
        if i >= |h| {
          assert Escape(s)[i] == Escape(s[1..])[i - |h|];
          if Escape(s)[i] == '"' && i == |h| {
            assert false;
          }
        }
      }
    }
  }

  /** Characters JSON forbids raw inside a string, other than the four the escape handles. */
  predicate NoOtherControls(s: string) {
    forall i :: 0 <= i < |s| ==> s[i] >= ' ' || s[i] in "\n\r\t\U{000C}"
  }

  /** Decoding an escaped text as the body of a JSON string literal gives the text back. */
  lemma {:induction false} EscapeRoundTrip(s: string, rest: string)
    requires NoOtherControls(s)
    ensures DecodeStringBody(Escape(s) + "\"" + rest) == Some((s, rest))
  {
    if s == [] {
      assert Escape(s) + "\"" + rest == ['"'] + rest;
    } else {
      var h := EscapeChar(s[0]);
      var tail := Escape(s[1..]) + "\"" + rest;
      assert Escape(s) + "\"" + rest == h + tail;
      EscapeRoundTrip(s[1..], rest);
      if |h| == 2 {
        assert (h + tail)[2..] == tail;
      } else {
        assert (h + tail)[1..] == tail;
      }
      assert [s[0]] + s[1..] == s;
    }
  }

  // ---------------------------------------------------------------------------
  // The function-call payload that header, fragments and closer spell out.
  // ---------------------------------------------------------------------------

  /** Concatenation of a list of strings. */
  function Join(parts: seq<string>): string {
    if parts == [] then "" else parts[0] + Join(parts[1..])
  }

  function EscapeAll(parts: seq<string>): (r: seq<string>)
    ensures |r| == |parts|
    ensures forall i :: 0 <= i < |parts| ==> r[i] == Escape(parts[i])
  {
    if parts == [] then [] else [Escape(parts[0])] + EscapeAll(parts[1..])
  }

  /** However the arguments are split into fragments, the escaped fragments join to the escape of the whole. */
  lemma {:induction false} EscapeJoin(parts: seq<string>)
    ensures Join(EscapeAll(parts)) == Escape(Join(parts))
  {
    if parts != [] {
      EscapeJoin(parts[1..]);
      EscapeConcat(parts[0], Join(parts[1..]));
    }
  }

  /**
   * Reads back the text the client receives for a function call: the exact
   * header layout, the name as a JSON string, the arguments as a JSON
   * string and the closing braces. Returns the name and the arguments.
   */
  function DecodeCallPayload(s: string): Option<(string, string)> {
    if |s| < |HeaderPrefix| || s[..|HeaderPrefix|] != HeaderPrefix then None
    else match DecodeStringBody(s[|HeaderPrefix|..])
      case None => None
      case Some(p1) =>
        var r1 := p1.1;
        if |r1| < |ArgumentsKey| || r1[..|ArgumentsKey|] != ArgumentsKey then None
        else match DecodeStringBody(r1[|ArgumentsKey|..])
          case None => None
          case Some(p2) => if p2.1 == "}}" then Some((p1.0, p2.0)) else None
  }

  /** The message the client sees for a function call whose arguments arrive as `parts`. */
  function CallMessage(name: string, parts: seq<string>): string {
    HeaderText(name) + Join(EscapeAll(parts)) + CloserText
  }

  /**
   * Header, escaped fragments and closer form an object whose name is the
   * call's name and whose `arguments` string is the raw fragments joined,
   * provided the name needs no escaping and the fragments hold no control
   * characters other than the four that are escaped.
   */
  lemma CallMessageRoundTrip(name: string, parts: seq<string>)
    requires IsPlainText(name)
    requires forall i :: 0 <= i < |parts| ==> NoOtherControls(parts[i])
    ensures DecodeCallPayload(CallMessage(name, parts)) == Some((name, Join(parts)))
  {
    JoinNoOtherControls(parts);
    EscapeJoin(parts);
    DecodeWholeCall(name, Join(parts));
  }

  /** The object written for one call, with the arguments escaped in one piece, decodes to its name and arguments. */
  lemma DecodeWholeCall(name: string, args: string)
    requires IsPlainText(name) && NoOtherControls(args)
    ensures DecodeCallPayload(HeaderText(name) + Escape(args) + CloserText) == Some((name, args))
  {
    var rest2 := Escape(args) + CloserText;
    var rest1 := name + "\"" + (ArgumentsKey + rest2);
    Seqs.Regroup(HeaderPrefix, name, "\"", ArgumentsKey, Escape(args), CloserText);
    assert CloserText == "\"" + "}}";
    Seqs.Assoc(Escape(args), "\"", "}}");
    DecodePlainText(name, ArgumentsKey + rest2);
    EscapeRoundTrip(args, "}}");
    DecodeCallPayloadOf(rest1, name, rest2, args);
  }

  /** How `DecodeCallPayload` reads a text: the prefix, a string, the key, a string, the braces. */
  lemma DecodeCallPayloadOf(rest1: string, name: string, rest2: string, args: string)
    requires DecodeStringBody(rest1) == Some((name, ArgumentsKey + rest2))
    requires DecodeStringBody(rest2) == Some((args, "}}"))
    ensures DecodeCallPayload(HeaderPrefix + rest1) == Some((name, args))
  {
    assert (HeaderPrefix + rest1)[..|HeaderPrefix|] == HeaderPrefix;
    assert (HeaderPrefix + rest1)[|HeaderPrefix|..] == rest1;
    assert (ArgumentsKey + rest2)[..|ArgumentsKey|] == ArgumentsKey;
    assert (ArgumentsKey + rest2)[|ArgumentsKey|..] == rest2;
  }

  lemma {:induction false} JoinNoOtherControls(parts: seq<string>)
    requires forall i :: 0 <= i < |parts| ==> NoOtherControls(parts[i])
    ensures NoOtherControls(Join(parts))
  {
    if parts != [] {
      JoinNoOtherControls(parts[1..]);
      var j := Join(parts);
      assert j == parts[0] + Join(parts[1..]);
      forall i | 0 <= i < |j| ensures j[i] >= ' ' || j[i] in "\n\r\t\U{000C}" {
        if i >= |parts[0]| { assert j[i] == Join(parts[1..])[i - |parts[0]|]; }
      }
    }
  }

  // ---------------------------------------------------------------------------
  // A function call as OpenAI streams it, and what the parser makes of it.
  // ---------------------------------------------------------------------------

  /** The first delta of a function call: the name with an empty argument placeholder. */
  function NameChunk(name: string): Chunk {
    Chunk([Choice(Some(Delta(None, Some(FunctionCallDelta(Some(name), Some(""))))), None, None)])
  }

  /** A delta carrying one argument fragment. */
  function ArgumentsChunk(fragment: string): Chunk {
    Chunk([Choice(Some(Delta(None, Some(FunctionCallDelta(None, Some(fragment))))), None, None)])
  }

  /** The last delta: empty, with finish reason `function_call`. */
  const FinishChunk: Chunk := Chunk([Choice(Some(Delta(None, None)), None, Some("function_call"))])

  /** The parser's output for a whole call: one fragment per delta. */
  function RenderAll(chunks: seq<Chunk>, trim: string -> string): (r: seq<string>)
    ensures |r| == |chunks|
    ensures forall i :: 0 <= i < |chunks| ==> r[i] == Render(Classify(chunks[i]), trim)
  {
    if chunks == [] then [] else [Render(Classify(chunks[0]), trim)] + RenderAll(chunks[1..], trim)
  }

  function ArgumentChunks(parts: seq<string>): (r: seq<Chunk>)
    ensures |r| == |parts|
    ensures forall i :: 0 <= i < |parts| ==> r[i] == ArgumentsChunk(parts[i])
  {
    if parts == [] then [] else [ArgumentsChunk(parts[0])] + ArgumentChunks(parts[1..])
  }

  lemma ClassifyCallChunks(name: string, fragment: string)
    requires name != "" && fragment != ""
    ensures Classify(NameChunk(name)) == Header(name)
    ensures Classify(ArgumentsChunk(fragment)) == Arguments(fragment)
    ensures Classify(FinishChunk) == Closer
  {
  }

  lemma {:induction false} RenderArguments(parts: seq<string>, trim: string -> string)
    requires forall i :: 0 <= i < |parts| ==> parts[i] != ""
    ensures RenderAll(ArgumentChunks(parts), trim) == EscapeAll(parts)
  {
    if parts != [] {
      ClassifyCallChunks("f", parts[0]);
      EscapeChainIsEscape(parts[0]);
      RenderArguments(parts[1..], trim);
      assert ArgumentChunks(parts)[1..] == ArgumentChunks(parts[1..]);
    }
  }

  lemma {:induction false} RenderAllConcat(a: seq<Chunk>, b: seq<Chunk>, trim: string -> string)
    ensures RenderAll(a + b, trim) == RenderAll(a, trim) + RenderAll(b, trim)
  {
    if a == [] {
      assert a + b == b;
    } else {
      assert (a + b)[1..] == a[1..] + b;
      RenderAllConcat(a[1..], b, trim);
    }
  }

  /**
   * A streamed function call (name delta, non-empty argument deltas, finish
   * delta) is rendered as the header, the escaped fragments and the closer.
   */
  lemma RenderFunctionCall(name: string, parts: seq<string>, trim: string -> string)
    requires name != ""
    requires forall i :: 0 <= i < |parts| ==> parts[i] != ""
    ensures RenderAll([NameChunk(name)] + ArgumentChunks(parts) + [FinishChunk], trim)
         == [HeaderText(name)] + EscapeAll(parts) + [CloserText]
  {
    ClassifyCallChunks(name, "x");
    var head, args, tail := [NameChunk(name)], ArgumentChunks(parts), [FinishChunk];
    assert RenderAll(head, trim) == [HeaderText(name)] by {
      assert RenderAll(head, trim)[0] == Render(Header(name), trim);
    }
    assert RenderAll(tail, trim) == [CloserText] by {
      assert RenderAll(tail, trim)[0] == Render(Closer, trim);
    }
    RenderArguments(parts, trim);
    RenderAllConcat(head, args, trim);
    RenderAllConcat(head + args, tail, trim);
  }

  // ---------------------------------------------------------------------------
  // `createFunctionCallTransformer`: the state machine.
  // ---------------------------------------------------------------------------

  /** The message prefix that marks the first chunk of a function call. */
  const FunctionCallStart: string := "{\"function_call\":"

  predicate StartsWith(s: string, prefix: string) {
    |prefix| <= |s| && s[..|prefix|] == prefix
  }

  predicate EndsWith(s: string, suffix: string) {
    |suffix| <= |s| && s[|s| - |suffix|..] == suffix
  }

  /**
   * The transformer's variables, plus what it has done so far: the chunks it
   * enqueued and the texts it handed to `JSON.parse` before calling
   * `onFunctionCall` (whose result it discards).
   */
  datatype TransformerState = TransformerState(
    isFirstChunk: bool,
    isFunctionStreamingIn: bool,
    aggregatedResponse: string,
    enqueued: seq<string>,
    handlerPayloads: seq<string>)

  const Initial: TransformerState := TransformerState(true, false, "", [], [])

  /** How the source decides that a function call is complete: the current chunk ends in `"}}`. */
  predicate EndsCallAsWritten(message: string) {
    EndsWith(message, CloserText)
  }

  /** The decision the source evidently intends: the current chunk is the closer itself. */
  predicate EndsCallIntended(message: string) {
    message == CloserText
  }

  /** One `transform` call; `completes` is the completion test applied to the message. */
  function StepWith(s: TransformerState, message: string, completes: bool, hasHandler: bool): TransformerState {
    if s.isFirstChunk then
      if StartsWith(message, FunctionCallStart) then
        s.(isFirstChunk := false, isFunctionStreamingIn := true, aggregatedResponse := s.aggregatedResponse + message)
      else
        s.(isFirstChunk := false, enqueued := s.enqueued + [message])
    else if !s.isFunctionStreamingIn then
      s.(enqueued := s.enqueued + [message])
    else if hasHandler then
      var aggregated := s.aggregatedResponse + message;
      if completes then
        s.(aggregatedResponse := aggregated, isFunctionStreamingIn := false,
           handlerPayloads := s.handlerPayloads + [aggregated])
      else
        s.(aggregatedResponse := aggregated)
    else
      s
  }

  /** One `transform` call; `intended` selects the completion test. */
  function Step(s: TransformerState, message: string, hasHandler: bool, intended: bool): TransformerState {
    StepWith(s, message, if intended then EndsCallIntended(message) else EndsCallAsWritten(message), hasHandler)
  }

  /** The state after the transformer has seen `messages` in order. */
  function Run(messages: seq<string>, hasHandler: bool, intended: bool): TransformerState
    decreases |messages|
  {
    if messages == [] then Initial
    else Step(Run(messages[..|messages| - 1], hasHandler, intended), messages[|messages| - 1], hasHandler, intended)
  }

  /** The transformer object; its fields are the closure variables of the source. */
  class FunctionCallTransformer {
    /** Whether `callbacks.onFunctionCall` is set. */
    const hasHandler: bool
    var isFirstChunk: bool
    var isFunctionStreamingIn: bool
    var aggregatedResponse: string
    /** Chunks passed to `controller.enqueue`, in order. */
    var enqueued: seq<string>
    /** Aggregated texts parsed and handed to `onFunctionCall`, in order. */
    var handlerPayloads: seq<string>

    function State(): TransformerState
      reads this
    {
      TransformerState(isFirstChunk, isFunctionStreamingIn, aggregatedResponse, enqueued, handlerPayloads)
    }

    constructor(hasHandler: bool)
      ensures State() == Initial && this.hasHandler == hasHandler
    {
      this.hasHandler := hasHandler;
      isFirstChunk := true;
      aggregatedResponse := "";
      isFunctionStreamingIn := false;
      enqueued := [];
      handlerPayloads := [];
    }

    /** `transform(chunk, controller)`, with the completion test as the source writes it. */
    method Transform(message: string)
      modifies this
      ensures State() == Step(old(State()), message, hasHandler, false)
    {
      if isFirstChunk {
        if |FunctionCallStart| <= |message| && message[..|FunctionCallStart|] == FunctionCallStart {
          isFunctionStreamingIn := true;
          aggregatedResponse := aggregatedResponse + message;
        } else {
          enqueued := enqueued + [message];
        }
        isFirstChunk := false;
      } else if !isFunctionStreamingIn {
        enqueued := enqueued + [message];
      } else if !isFirstChunk && hasHandler && isFunctionStreamingIn {
        aggregatedResponse := aggregatedResponse + message;
        if |CloserText| <= |message| && message[|message| - |CloserText|..] == CloserText {
          isFunctionStreamingIn := false;
          handlerPayloads := handlerPayloads + [aggregatedResponse];
        }
      }
    }
  }

  // ---------------------------------------------------------------------------
  // What the state machine guarantees.
  // ---------------------------------------------------------------------------

  lemma RunAppend(messages: seq<string>, m: string, hasHandler: bool, intended: bool)
    ensures Run(messages + [m], hasHandler, intended) == Step(Run(messages, hasHandler, intended), m, hasHandler, intended)
  {
    assert (messages + [m])[..|messages|] == messages;
  }

  /** After the first chunk, the machine is never in its first-chunk state again. */
  lemma {:induction false} RunNotFirst(messages: seq<string>, hasHandler: bool, intended: bool)
    ensures Run(messages, hasHandler, intended).isFirstChunk <==> messages == []
  {
    if messages != [] {
      RunNotFirst(messages[..|messages| - 1], hasHandler, intended);
    }
  }

  /** When the first chunk does not open a function call, every chunk is forwarded unchanged and nothing is buffered. */
  lemma {:induction false} ForwardsPlainStream(messages: seq<string>, hasHandler: bool, intended: bool)
    requires messages != [] && !StartsWith(messages[0], FunctionCallStart)
    ensures Run(messages, hasHandler, intended) == TransformerState(false, false, "", messages, [])
  {
    if |messages| > 1 {
      var init := messages[..|messages| - 1];
      assert init[0] == messages[0];
      ForwardsPlainStream(init, hasHandler, intended);
      assert init + [messages[|messages| - 1]] == messages;
    }
  }

  /**
   * While a function call streams in, every chunk since the call began is
   * appended to the buffer and none is forwarded, as long as no chunk after
   * the first passes the completion test.
   */
  lemma {:induction false} BuffersFunctionCall(messages: seq<string>, intended: bool)
    requires messages != [] && StartsWith(messages[0], FunctionCallStart)
    requires forall i :: 1 <= i < |messages| ==>
      !(if intended then EndsCallIntended(messages[i]) else EndsCallAsWritten(messages[i]))
    ensures Run(messages, true, intended) == TransformerState(false, true, Join(messages), [], [])
  {
    if |messages| == 1 {
      assert Join(messages) == messages[0] + Join([]);
    } else {
      var init := messages[..|messages| - 1];
      assert init[0] == messages[0];
      BuffersFunctionCall(init, intended);
      JoinAppend(init, messages[|messages| - 1]);
      assert init + [messages[|messages| - 1]] == messages;
    }
  }

  lemma {:induction false} JoinAppend(parts: seq<string>, last: string)
    ensures Join(parts + [last]) == Join(parts) + last
  {
    if parts == [] {
      assert [] + [last] == [last];
    } else {
      assert (parts + [last])[1..] == parts[1..] + [last];
      JoinAppend(parts[1..], last);
    }
  }

  /**
   * The chunk that passes the completion test ends buffering: the whole
   * aggregate is handed over once, and nothing has been forwarded.
   */
  lemma CompletesFunctionCall(messages: seq<string>, last: string, intended: bool)
    requires messages != [] && StartsWith(messages[0], FunctionCallStart)
    requires forall i :: 1 <= i < |messages| ==>
      !(if intended then EndsCallIntended(messages[i]) else EndsCallAsWritten(messages[i]))
    requires if intended then EndsCallIntended(last) else EndsCallAsWritten(last)
    ensures Run(messages + [last], true, intended)
         == TransformerState(false, false, Join(messages + [last]), [], [Join(messages + [last])])
  {
    BuffersFunctionCall(messages, intended);
    RunAppend(messages, last, true, intended);
    JoinAppend(messages, last);
  }

  /** Once a call has completed (or none began), later chunks are forwarded unchanged. */
  lemma {:induction false} ForwardsAfterCall(before: seq<string>, after: seq<string>, hasHandler: bool, intended: bool)
    requires before != []
    requires !Run(before, hasHandler, intended).isFunctionStreamingIn
    ensures Run(before + after, hasHandler, intended)
         == Run(before, hasHandler, intended).(enqueued := Run(before, hasHandler, intended).enqueued + after)
  {
    RunNotFirst(before, hasHandler, intended);
    if after == [] {
      assert before + after == before;
    } else {
      var init := after[..|after| - 1];
      ForwardsAfterCall(before, init, hasHandler, intended);
      RunNotFirst(before + init, hasHandler, intended);
      assert (before + init) + [after[|after| - 1]] == before + after;
      assert init + [after[|after| - 1]] == after;
    }
  }

  // ---------------------------------------------------------------------------
  // End to end: a streamed call reaches the handler as the intended payload.
  // ---------------------------------------------------------------------------

  /** An escaped fragment is never the closer: any quote in it follows a backslash. */
  lemma EscapeIsNotCloser(s: string)
    ensures !EndsCallIntended(Escape(s))
  {
    EscapeIsSafe(s);
    var e := Escape(s);
    if |e| > 0 {
      assert e[0] != '"';
    }
    assert CloserText[0] == '"';
  }

  /** The header of a call is never mistaken for its closer. */
  lemma HeaderIsNotCloser(name: string)
    ensures !EndsCallIntended(HeaderText(name)) && StartsWith(HeaderText(name), FunctionCallStart)
  {
    assert HeaderText(name)[0] == '{';
  }

  /**
   * With the intended completion test, the messages the parser renders for a
   * streamed function call reach `onFunctionCall` as one payload, which
   * decodes to the call's name and its argument fragments joined; nothing is
   * forwarded.
   */
  lemma IntendedTransformerDeliversCall(name: string, parts: seq<string>)
    requires IsPlainText(name)
    requires forall i :: 0 <= i < |parts| ==> NoOtherControls(parts[i])
    ensures var s := Run([HeaderText(name)] + EscapeAll(parts) + [CloserText], true, true);
      && s.enqueued == []
      && !s.isFunctionStreamingIn
      && |s.handlerPayloads| == 1
      && DecodeCallPayload(s.handlerPayloads[0]) == Some((name, Join(parts)))
  {
    var messages := [HeaderText(name)] + EscapeAll(parts);
    CallBodyStaysOpen(name, parts);
    CompletesFunctionCall(messages, CloserText, true);
    JoinCall(name, parts);
    CallMessageRoundTrip(name, parts);
  }

  /** Under the corrected test, neither the header nor any escaped fragment completes the call. */
  lemma CallBodyStaysOpen(name: string, parts: seq<string>)
    requires IsPlainText(name)
    requires forall i :: 0 <= i < |parts| ==> NoOtherControls(parts[i])
    ensures var messages := [HeaderText(name)] + EscapeAll(parts);
      && StartsWith(messages[0], FunctionCallStart)
      && forall i :: 1 <= i < |messages| ==> !EndsCallIntended(messages[i])
  {
    var messages := [HeaderText(name)] + EscapeAll(parts);
    HeaderIsNotCloser(name);
    forall i | 1 <= i < |messages| ensures !EndsCallIntended(messages[i]) {
      EscapeIsNotCloser(parts[i - 1]);
    }
  }

  lemma JoinCall(name: string, parts: seq<string>)
    ensures Join([HeaderText(name)] + EscapeAll(parts) + [CloserText]) == CallMessage(name, parts)
  {
    var messages := [HeaderText(name)] + EscapeAll(parts);
    JoinAppend(messages, CloserText);
    assert messages[1..] == EscapeAll(parts);
  }

  /**
   * The completion test as written fires early on an argument fragment whose
   * escape ends in `"}}`: the raw fragment `c"}}` (the tail of arguments such
   * as `{"a":{"b":"c"}}`) escapes to `c\"}}`. The call is cut at that
   * fragment: the aggregate's `arguments` string is unterminated, so it does
   * not decode, and in the program `JSON.parse` throws on it before
   * `onFunctionCall` is reached and the stream errors. The model does not
   * represent that parse failure (the buffer is logged as text), so the
   * last conjunct, the closer being forwarded, describes the model only.
   */
  lemma AsWrittenCompletesEarly()
    ensures var s := Run([HeaderText("f")] + EscapeAll(["c\"}}"]) + [CloserText], true, false);
      && EscapeAll(["c\"}}"]) == ["c\\\"}}"]
      && s.handlerPayloads == [HeaderText("f") + "c\\\"}}"]
      && DecodeCallPayload(s.handlerPayloads[0]) == None
      && s.enqueued == [CloserText]
  {
    EscapeSample();
    var escaped := EscapeAll(["c\"}}"]);
    assert escaped == ["c\\\"}}"];
    var messages := [HeaderText("f"), "c\\\"}}"];
    assert [HeaderText("f")] + escaped + [CloserText] == messages + [CloserText];
    RunSample(messages);
    UnterminatedSample();
  }

  lemma EscapeSample()
    ensures Escape("c\"}}") == "c\\\"}}"
  {
    var raw := "c\"}}";
    assert raw == ['c'] + ['"'] + ['}'] + ['}'];
    EscapeConcat(['c'] + ['"'] + ['}'], ['}']);
    EscapeConcat(['c'] + ['"'], ['}']);
    EscapeConcat(['c'], ['"']);
  }

  lemma RunSample(messages: seq<string>)
    requires messages == [HeaderText("f"), "c\\\"}}"]
    ensures Run(messages + [CloserText], true, false)
         == TransformerState(false, false, HeaderText("f") + "c\\\"}}", [CloserText], [HeaderText("f") + "c\\\"}}"])
  {
    HeaderIsNotCloser("f");
    assert EndsCallAsWritten(messages[1]);
    CompletesFunctionCall(messages[..1], messages[1], false);
    assert messages[..1] + [messages[1]] == messages;
    JoinAppend(messages[..1], messages[1]);
    assert Join(messages[..1]) == HeaderText("f") + Join([]);
    assert Join(messages) == HeaderText("f") + "c\\\"}}";
    var before := Run(messages, true, false);
    assert before == TransformerState(false, false, HeaderText("f") + "c\\\"}}", [], [HeaderText("f") + "c\\\"}}"]);
    RunAppend(messages, CloserText, true, false);
    assert Run(messages + [CloserText], true, false) == Step(before, CloserText, true, false);
  }

  lemma UnterminatedSample()
    ensures DecodeCallPayload(HeaderText("f") + "c\\\"}}") == None
  {
    var rest2 := "c\\\"}}";
    var rest1 := "f" + "\"" + (ArgumentsKey + rest2);
    assert HeaderText("f") + rest2 == HeaderPrefix + rest1;
    DecodePlainText("f", ArgumentsKey + rest2);
    assert DecodeStringBody("}") == None;
    assert DecodeStringBody("}}") == None by { assert "}}"[1..] == "}"; }
    assert rest2[1..] == "\\\"}}";
    assert rest2[1..][2..] == "}}";
    assert DecodeStringBody(rest2[1..]) == None;
    assert (HeaderPrefix + rest1)[..|HeaderPrefix|] == HeaderPrefix;
    assert (HeaderPrefix + rest1)[|HeaderPrefix|..] == rest1;
    assert (ArgumentsKey + rest2)[..|ArgumentsKey|] == ArgumentsKey;
    assert (ArgumentsKey + rest2)[|ArgumentsKey|..] == rest2;
  }

  // ---------------------------------------------------------------------------
  // `OpenAIStream`: the transformer is attached only when there is a handler.
  // ---------------------------------------------------------------------------

  /**
   * The chunks that reach the client for the parsed messages `parsed`: with
   * an `onFunctionCall` callback they go through the function-call
   * transformer, otherwise they are returned as they are.
   */
  function StreamOutput(parsed: seq<string>, hasOnFunctionCall: bool): (out: seq<string>)
    ensures !hasOnFunctionCall ==> out == parsed
    ensures hasOnFunctionCall && parsed != [] && !StartsWith(parsed[0], FunctionCallStart) ==> out == parsed
  {
    if hasOnFunctionCall then
      if parsed != [] && !StartsWith(parsed[0], FunctionCallStart) then
        ForwardsPlainStream(parsed, true, false);
        Run(parsed, true, false).enqueued
      else
        Run(parsed, true, false).enqueued
    else parsed
  }
}
