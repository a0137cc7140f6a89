/**
 * The Mistral chat model adapter (packages/core/provider/mistral/mistral-chat-language-model.ts),
 * restricted to what it computes: the per-chunk `transform` callbacks of
 * `doStream` and `doStreamJsonText`, the `objectMode` default and the
 * `tool_calls` mapping of `doGenerateJsonText`.
 */
module Mistral {
  import opened Wrappers

  /** A streamed delta; `content` may be null or absent. */
  datatype MistralDelta = MistralDelta(content: Option<string>)
  /** A streamed choice; `delta` may be null or absent. */
  datatype MistralChoice = MistralChoice(delta: Option<MistralDelta>)
  /** A streamed chunk; `choices` may be null or absent, or an empty array. */
  datatype MistralChunk = MistralChunk(choices: Option<seq<MistralChoice>>)

  /** Which of the three streams a transform belongs to. */
  datatype StreamKind =
    | TextStream      // doStream
    | JsonModeStream  // doStreamJsonText, mode 'json'
    | ToolModeStream  // doStreamJsonText, mode 'tool'

  /** The parts the transforms enqueue. */
  datatype StreamPart = TextDelta(textDelta: string) | JsonTextDelta(textDelta: string)

  /** The part a stream of the given kind emits for a piece of content. */
  function PartFor(kind: StreamKind, content: string): (p: StreamPart)
    ensures p.textDelta == content
    ensures p.TextDelta? <==> kind == TextStream
  {
    match kind
    case TextStream => TextDelta(content)
    case JsonModeStream => JsonTextDelta(content)
    case ToolModeStream => JsonTextDelta(content)
  }

  /** The `TypeError` raised when `choices` is an empty array and `choices[0].delta` is read from `undefined`. */
  const UndefinedDelta: string := "TypeError: Cannot read properties of undefined (reading 'delta')"

  /**
   * One call of `transform`: `Ok(None)` when nothing is enqueued,
   * `Ok(Some(p))` when `p` is enqueued, `Err` when the callback throws.
   */
  function TransformChunk(kind: StreamKind, chunk: MistralChunk): (r: Result<Option<StreamPart>, string>)
    ensures r.Err? <==> chunk.choices == Some([])
    ensures chunk.choices.None? ==> r == Ok(None)
    ensures chunk.choices.Some? && |chunk.choices.value| > 0 && chunk.choices.value[0].delta.None? ==> r == Ok(None)
    ensures r.Ok? && r.value.Some? <==>
      && chunk.choices.Some? && |chunk.choices.value| > 0
      && chunk.choices.value[0].delta.Some?
      && chunk.choices.value[0].delta.value.content.Some?
    ensures r.Ok? && r.value.Some? ==>
      r.value.value == PartFor(kind, chunk.choices.value[0].delta.value.content.value)
  {
    if chunk.choices.None? then Ok(None)
    else if |chunk.choices.value| == 0 then Err(UndefinedDelta)
    else if chunk.choices.value[0].delta.None? then Ok(None)
    else
      var delta := chunk.choices.value[0].delta.value;
      if delta.content.Some? then Ok(Some(PartFor(kind, delta.content.value))) else Ok(None)
  }

  /** What a readable stream delivers: the enqueued parts and, if a callback threw, the error it ends with. */
  datatype Delivered = Delivered(parts: seq<StreamPart>, error: Option<string>)

  /** The stream after `pipeThrough`: every chunk transformed in order, stopping at the first error. */
  function Transform(kind: StreamKind, chunks: seq<MistralChunk>): (d: Delivered)
    ensures |d.parts| <= |chunks|
    decreases |chunks|
  {
    if chunks == [] then Delivered([], None)
    else
      match TransformChunk(kind, chunks[0])
      case Err(e) => Delivered([], Some(e))
      case Ok(None) => Transform(kind, chunks[1..])
      case Ok(Some(p)) =>
        var rest := Transform(kind, chunks[1..]);
        Delivered([p] + rest.parts, rest.error)
  }

  /** A stream fails exactly when one of its chunks has an empty `choices` array. */
  lemma {:induction false} TransformFails(kind: StreamKind, chunks: seq<MistralChunk>)
    ensures Transform(kind, chunks).error.Some? <==> exists i :: 0 <= i < |chunks| && chunks[i].choices == Some([])
    decreases |chunks|
  {
    if chunks != [] {
      TransformFails(kind, chunks[1..]);
      if TransformChunk(kind, chunks[0]).Ok? {
        forall i | 1 <= i < |chunks|
          ensures chunks[i] == chunks[1..][i - 1]
        {
        }
        if exists i :: 0 <= i < |chunks| && chunks[i].choices == Some([]) {
          var i :| 0 <= i < |chunks| && chunks[i].choices == Some([]);
          assert chunks[1..][i - 1] == chunks[i];
        }
      }
    }
  }

  /**
   * The stream is the in-order filter-map of its chunks: the stream of a
   * concatenation is the first stream followed by the second, unless the
   * first already failed.
   */
  lemma {:induction false} TransformConcat(kind: StreamKind, a: seq<MistralChunk>, b: seq<MistralChunk>)
    ensures Transform(kind, a).error.Some? ==> Transform(kind, a + b) == Transform(kind, a)
    ensures Transform(kind, a).error.None? ==>
      Transform(kind, a + b) == Delivered(Transform(kind, a).parts + Transform(kind, b).parts, Transform(kind, b).error)
    decreases |a|
  {
    if a == [] {
      assert a + b == b;
    } else {
      assert (a + b)[0] == a[0];
      assert (a + b)[1..] == a[1..] + b;
      TransformConcat(kind, a[1..], b);
      match TransformChunk(kind, a[0])
      case Err(_) =>
      case Ok(None) =>
      case Ok(Some(p)) =>
        var ra := Transform(kind, a[1..]);
        var rb := Transform(kind, b);
        if ra.error.None? {
          assert [p] + (ra.parts + rb.parts) == ([p] + ra.parts) + rb.parts;
        }
    }
  }

  /** A single chunk contributes at most its own part, and the error it raises. */
  lemma TransformSingle(kind: StreamKind, c: MistralChunk)
    ensures TransformChunk(kind, c).Err? ==> Transform(kind, [c]) == Delivered([], Some(UndefinedDelta))
    ensures TransformChunk(kind, c) == Ok(None) ==> Transform(kind, [c]) == Delivered([], None)
    ensures TransformChunk(kind, c).Ok? && TransformChunk(kind, c).value.Some? ==>
      Transform(kind, [c]) == Delivered([TransformChunk(kind, c).value.value], None)
  {
    assert [c][1..] == [];
  }

  /** The text carried by each part, in order. */
  function Texts(parts: seq<StreamPart>): (r: seq<string>)
    ensures |r| == |parts|
    ensures forall i :: 0 <= i < |r| ==> r[i] == parts[i].textDelta
  {
    if parts == [] then [] else [parts[0].textDelta] + Texts(parts[1..])
  }

  /** The non-null contents of the chunks, in order, up to the first chunk with an empty `choices` array. */
  function Contents(chunks: seq<MistralChunk>): seq<string>
    decreases |chunks|
  {
    if chunks == [] then []
    else
      var c := chunks[0];
      if c.choices == Some([]) then []
      else if c.choices.Some? && c.choices.value[0].delta.Some? && c.choices.value[0].delta.value.content.Some? then
        [c.choices.value[0].delta.value.content.value] + Contents(chunks[1..])
      else Contents(chunks[1..])
  }

  /**
   * All three streams deliver the same texts, the chunks' contents in
   * order; the two `doStreamJsonText` modes deliver identical streams, and
   * only `doStream` emits `text-delta` parts.
   */
  lemma {:induction false} StreamsAgree(chunks: seq<MistralChunk>)
    ensures Texts(Transform(TextStream, chunks).parts) == Contents(chunks)
    ensures Texts(Transform(JsonModeStream, chunks).parts) == Contents(chunks)
    ensures Transform(JsonModeStream, chunks) == Transform(ToolModeStream, chunks)
    ensures Transform(TextStream, chunks).error == Transform(JsonModeStream, chunks).error
    ensures forall i :: 0 <= i < |Transform(TextStream, chunks).parts| ==> Transform(TextStream, chunks).parts[i].TextDelta?
    ensures forall i :: 0 <= i < |Transform(JsonModeStream, chunks).parts| ==> Transform(JsonModeStream, chunks).parts[i].JsonTextDelta?
    decreases |chunks|
  {
    if chunks != [] {
      StreamsAgree(chunks[1..]);
      var t := Transform(TextStream, chunks[1..]);
      var j := Transform(JsonModeStream, chunks[1..]);
      match TransformChunk(TextStream, chunks[0])
      case Err(_) =>
      case Ok(None) =>
      case Ok(Some(p)) =>
        assert Texts([p] + t.parts) == [p.textDelta] + Texts(t.parts) by {
          assert ([p] + t.parts)[1..] == t.parts;
        }
        var q := TransformChunk(JsonModeStream, chunks[0]).value.value;
        assert Texts([q] + j.parts) == [q.textDelta] + Texts(j.parts) by {
          assert ([q] + j.parts)[1..] == j.parts;
        }
    }
  }

  /** The object-generation modes; `ObjectMode` in packages/core/core is not part of this model beyond these two. */
  datatype ObjectMode = JsonMode | ToolMode

  /** The `objectMode` getter: the configured mode, `'json'` when none is configured. */
  function EffectiveObjectMode(setting: Option<ObjectMode>): (m: ObjectMode)
    ensures setting.None? ==> m == JsonMode
    ensures setting.Some? ==> m == setting.value
  {
    setting.GetOr(JsonMode)
  }

  /** A tool call as the Mistral client returns it. */
  datatype MistralFunction = MistralFunction(name: string, arguments: string)
  datatype MistralToolCall = MistralToolCall(id: string, fn: MistralFunction)  // `function` in the client

  /** A tool call in the shape `doGenerateJsonText` returns. */
  datatype ToolCall = ToolCall(toolCallId: string, toolName: string, args: string)

  function ToToolCall(c: MistralToolCall): ToolCall {
    ToolCall(c.id, c.fn.name, c.fn.arguments)
  }

  function MapToolCalls(calls: seq<MistralToolCall>): (r: seq<ToolCall>)
    ensures |r| == |calls|
    ensures forall i :: 0 <= i < |r| ==>
      r[i] == ToolCall(calls[i].id, calls[i].fn.name, calls[i].fn.arguments)
  {
    if calls == [] then [] else [ToToolCall(calls[0])] + MapToolCalls(calls[1..])
  }

  /** `message.tool_calls?.map(...)`: absent stays absent, otherwise one call per call, in order. */
  function ToolCalls(toolCalls: Option<seq<MistralToolCall>>): (r: Option<seq<ToolCall>>)
    ensures r.None? <==> toolCalls.None?
    ensures r.Some? ==> |r.value| == |toolCalls.value|
    ensures r.Some? ==> forall i :: 0 <= i < |r.value| ==>
      && r.value[i].toolCallId == toolCalls.value[i].id
      && r.value[i].toolName == toolCalls.value[i].fn.name
      && r.value[i].args == toolCalls.value[i].fn.arguments
  {
    match toolCalls
    case None => None
    case Some(calls) => Some(MapToolCalls(calls))
  }

  /** The inverse mapping, from returned calls back to the client's shape. */
  function FromToolCalls(calls: seq<ToolCall>): (r: seq<MistralToolCall>)
    ensures |r| == |calls|
  {
    if calls == [] then []
    else [MistralToolCall(calls[0].toolCallId, MistralFunction(calls[0].toolName, calls[0].args))] + FromToolCalls(calls[1..])
  }

  /** The mapping loses nothing: every id, name and argument string can be recovered. */
  lemma {:induction false} ToolCallsRoundTrip(calls: seq<MistralToolCall>)
    ensures FromToolCalls(MapToolCalls(calls)) == calls
    decreases |calls|
  {
    if calls != [] {
      ToolCallsRoundTrip(calls[1..]);
      assert MapToolCalls(calls)[1..] == MapToolCalls(calls[1..]);
    }
  }
}
