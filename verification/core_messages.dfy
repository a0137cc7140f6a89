/**
 * `convertToCoreMessages` (packages/core/core/prompt/convert-to-core-messages.ts):
 * turns the messages a chat UI keeps into the messages the core functions
 * take. A user message becomes one user message; an assistant message
 * becomes one assistant message, or, when it carries tool invocations, an
 * assistant message with the tool calls followed by a tool message with
 * their results.
 */
module CoreMessages {
  import opened Wrappers
  import opened Json
  import Seqs

  /** A tool invocation recorded on a UI message: a call together with its result. */
  datatype ToolInvocation = ToolInvocation(toolCallId: string, toolName: string, args: Json, result: Json)

  /** An attached file; its fields are only passed on to `filesToParts`. */
  datatype MessageFile = MessageFile(name: Option<string>, contentType: Option<string>, url: string)

  /** A message as the chat UI keeps it. `role` is a string, so that an unexpected role can be represented. */
  datatype UIMessage = UIMessage(
    role: string,
    content: string,
    toolInvocations: Option<seq<ToolInvocation>>,
    files: Option<seq<MessageFile>>)

  // Content parts, after the shapes of packages/ai/core/prompt/content-part.ts.
  datatype UserPart = UserText(text: string) | UserImage(image: string, mimeType: Option<string>)
  datatype AssistantPart =
    | AssistantText(text: string)
    | ToolCallPart(toolCallId: string, toolName: string, args: Json)
  /** A tool-result part; the conversion also copies the call's `args` into it. */
  datatype ToolResultPart = ToolResultPart(toolCallId: string, toolName: string, args: Json, result: Json)

  datatype UserContent = UserString(text: string) | UserParts(parts: seq<UserPart>)
  datatype AssistantContent = AssistantString(text: string) | AssistantParts(parts: seq<AssistantPart>)

  datatype CoreMessage =
    | CoreUser(user: UserContent)
    | CoreAssistant(assistant: AssistantContent)
    | CoreTool(results: seq<ToolResultPart>)

  /** One tool-call part per invocation, in invocation order, carrying its id, name and arguments. */
  function ToolCallParts(invocations: seq<ToolInvocation>): (r: seq<AssistantPart>)
    ensures |r| == |invocations|
    ensures forall i :: 0 <= i < |r| ==>
      r[i] == ToolCallPart(invocations[i].toolCallId, invocations[i].toolName, invocations[i].args)
  {
    if invocations == [] then []
    else
      [ToolCallPart(invocations[0].toolCallId, invocations[0].toolName, invocations[0].args)]
      + ToolCallParts(invocations[1..])
  }

  /** One tool-result part per invocation, in invocation order, carrying its id, name, arguments and result. */
  function ToolResultParts(invocations: seq<ToolInvocation>): (r: seq<ToolResultPart>)
    ensures |r| == |invocations|
    ensures forall i :: 0 <= i < |r| ==>
      r[i] == ToolResultPart(invocations[i].toolCallId, invocations[i].toolName, invocations[i].args, invocations[i].result)
  {
    if invocations == [] then []
    else
      [ToolResultPart(invocations[0].toolCallId, invocations[0].toolName, invocations[0].args, invocations[0].result)]
      + ToolResultParts(invocations[1..])
  }

  /** The error thrown for a role the conversion does not handle. */
  function UnhandledRole(role: string): string {
    "Unhandled role: " + role
  }

  /** What one UI message becomes; `filesToParts` is the helper that turns attached files into parts. */
  function ConvertMessage(m: UIMessage, filesToParts: seq<MessageFile> -> seq<UserPart>): (r: Result<seq<CoreMessage>, string>)
  {
    if m.role == "user" then
      Ok([CoreUser(
        if m.files.Some? then UserParts([UserText(m.content)] + filesToParts(m.files.value))
        else UserString(m.content))])
    else if m.role == "assistant" then
      if m.toolInvocations.None? then Ok([CoreAssistant(AssistantString(m.content))])
      else
        var invocations := m.toolInvocations.value;
        Ok([CoreAssistant(AssistantParts([AssistantText(m.content)] + ToolCallParts(invocations))),
            CoreTool(ToolResultParts(invocations))])
    else Err(UnhandledRole(m.role))
  }

  /** The reference definition: the messages converted in order, stopping at the first unhandled role. */
  function Converted(ms: seq<UIMessage>, filesToParts: seq<MessageFile> -> seq<UserPart>): Result<seq<CoreMessage>, string>
    decreases |ms|
  {
    if ms == [] then Ok([])
    else
      match Converted(ms[..|ms| - 1], filesToParts)
      case Err(e) => Err(e)
      case Ok(done) =>
        match ConvertMessage(ms[|ms| - 1], filesToParts)
        case Err(e) => Err(e)
        case Ok(out) => Ok(done + out)
  }

  /** The conversion as the source writes it: a loop that pushes onto `coreMessages`. */
  method ConvertToCoreMessages(messages: seq<UIMessage>, filesToParts: seq<MessageFile> -> seq<UserPart>)
    returns (r: Result<seq<CoreMessage>, string>)
    ensures r == Converted(messages, filesToParts)
  {
    var coreMessages: seq<CoreMessage> := [];
    for i := 0 to |messages|
      invariant Converted(messages[..i], filesToParts) == Ok(coreMessages)
    {
      var m := messages[i];
      ghost var before := coreMessages;
      assert messages[..i + 1][..i] == messages[..i];
      if m.role == "user" {
        if m.files.Some? {
          coreMessages := coreMessages + [CoreUser(UserParts([UserText(m.content)] + filesToParts(m.files.value)))];
        } else {
          coreMessages := coreMessages + [CoreUser(UserString(m.content))];
        }
      } else if m.role == "assistant" {
        if m.toolInvocations.None? {
          coreMessages := coreMessages + [CoreAssistant(AssistantString(m.content))];
        } else {
          var invocations := m.toolInvocations.value;
          coreMessages := coreMessages + [CoreAssistant(AssistantParts([AssistantText(m.content)] + ToolCallParts(invocations)))];
          coreMessages := coreMessages + [CoreTool(ToolResultParts(invocations))];
          assert coreMessages == before + ConvertMessage(m, filesToParts).value;
        }
      } else {
        assert Converted(messages[..i + 1], filesToParts) == Err(UnhandledRole(m.role));
        ConvertedStopsAtError(messages, i, filesToParts);
        return Err(UnhandledRole(m.role));
      }
    }
    assert messages[..|messages|] == messages;
    return Ok(coreMessages);
  }

  /** Once a prefix fails, the whole conversion fails with the same error. */
  lemma {:induction false} ConvertedStopsAtError(ms: seq<UIMessage>, i: nat, filesToParts: seq<MessageFile> -> seq<UserPart>)
    requires i < |ms| && Converted(ms[..i + 1], filesToParts).Err?
    ensures Converted(ms, filesToParts) == Converted(ms[..i + 1], filesToParts)
    decreases |ms|
  {
    if i + 1 < |ms| {
      var init := ms[..|ms| - 1];
      assert init[..i + 1] == ms[..i + 1];
      ConvertedStopsAtError(init, i, filesToParts);
    } else {
      assert ms[..i + 1] == ms;
    }
  }

  // ---------------------------------------------------------------------------
  // Counting and ordering.
  // ---------------------------------------------------------------------------

  predicate HandledRole(m: UIMessage) {
    m.role == "user" || m.role == "assistant"
  }

  /** How many messages one UI message becomes: two for an assistant message with tool invocations (even none). */
  function Width(m: UIMessage): nat {
    if m.role == "assistant" && m.toolInvocations.Some? then 2 else 1
  }

  /** The four cases the conversion distinguishes. */
  datatype Shape = UserShape | PlainAssistant | ToolAssistant | OtherRole

  function ShapeOf(m: UIMessage): Shape {
    if m.role == "user" then UserShape
    else if m.role == "assistant" then (if m.toolInvocations.Some? then ToolAssistant else PlainAssistant)
    else OtherRole
  }

  /** The number of messages of one shape. */
  function Count(ms: seq<UIMessage>, shape: Shape): (n: nat)
    ensures n <= |ms|
  {
    if ms == [] then 0 else (if ShapeOf(ms[0]) == shape then 1 else 0) + Count(ms[1..], shape)
  }

  function TotalWidth(ms: seq<UIMessage>): nat {
    if ms == [] then 0 else Width(ms[0]) + TotalWidth(ms[1..])
  }

  lemma {:induction false} TotalWidthAppend(ms: seq<UIMessage>, m: UIMessage)
    ensures TotalWidth(ms + [m]) == TotalWidth(ms) + Width(m)
  {
    if ms != [] {
      assert (ms + [m])[1..] == ms[1..] + [m];
      TotalWidthAppend(ms[1..], m);
    }
  }

  lemma {:induction false} TotalWidthByRole(ms: seq<UIMessage>)
    requires forall i :: 0 <= i < |ms| ==> HandledRole(ms[i])
    ensures TotalWidth(ms)
         == Count(ms, UserShape)
          + Count(ms, PlainAssistant)
          + 2 * Count(ms, ToolAssistant)
  {
    if ms != [] {
      TotalWidthByRole(ms[1..]);
    }
  }

  /**
   * The conversion succeeds exactly when every role is handled; it then
   * yields one message per user message, one per assistant message without
   * tool invocations and two per assistant message with them.
   */
  lemma {:induction false} ConvertedCount(ms: seq<UIMessage>, filesToParts: seq<MessageFile> -> seq<UserPart>)
    ensures Converted(ms, filesToParts).Ok? <==> forall i :: 0 <= i < |ms| ==> HandledRole(ms[i])
    ensures Converted(ms, filesToParts).Ok? ==>
      |Converted(ms, filesToParts).value|
        == Count(ms, UserShape)
         + Count(ms, PlainAssistant)
         + 2 * Count(ms, ToolAssistant)
  {
    ConvertedOk(ms, filesToParts);
    if Converted(ms, filesToParts).Ok? {
      ConvertedWidth(ms, filesToParts);
      TotalWidthByRole(ms);
    }
  }

  lemma {:induction false} ConvertedOk(ms: seq<UIMessage>, filesToParts: seq<MessageFile> -> seq<UserPart>)
    ensures Converted(ms, filesToParts).Ok? <==> forall i :: 0 <= i < |ms| ==> HandledRole(ms[i])
    decreases |ms|
  {
    if ms != [] {
      var init := ms[..|ms| - 1];
      ConvertedOk(init, filesToParts);
      ConvertMessageWidth(ms[|ms| - 1], filesToParts);
      if Converted(ms, filesToParts).Ok? {
        assert forall i :: 0 <= i < |init| ==> init[i] == ms[i];
      } else if Converted(init, filesToParts).Ok? {
        assert !HandledRole(ms[|ms| - 1]);
      } else {
        var k :| 0 <= k < |init| && !HandledRole(init[k]);
        assert ms[k] == init[k];
      }
    }
  }

  lemma {:induction false} ConvertedWidth(ms: seq<UIMessage>, filesToParts: seq<MessageFile> -> seq<UserPart>)
    ensures Converted(ms, filesToParts).Ok? ==> |Converted(ms, filesToParts).value| == TotalWidth(ms)
    decreases |ms|
  {
    if ms != [] && Converted(ms, filesToParts).Ok? {
      var init := ms[..|ms| - 1];
      ConvertedWidth(init, filesToParts);
      ConvertMessageWidth(ms[|ms| - 1], filesToParts);
      TotalWidthAppend(init, ms[|ms| - 1]);
      Seqs.InitLast(ms);
    }
  }

  /** One message converts exactly when its role is handled, into `Width` messages; otherwise the error names the role. */
  lemma ConvertMessageWidth(m: UIMessage, filesToParts: seq<MessageFile> -> seq<UserPart>)
    ensures ConvertMessage(m, filesToParts).Ok? <==> HandledRole(m)
    ensures ConvertMessage(m, filesToParts).Ok? ==> |ConvertMessage(m, filesToParts).value| == Width(m)
    ensures ConvertMessage(m, filesToParts).Err? ==> ConvertMessage(m, filesToParts).error == UnhandledRole(m.role)
  {
  }

  /** When a message has an unhandled role, the error names the first such role. */
  lemma {:induction false} ConvertedError(ms: seq<UIMessage>, k: nat, filesToParts: seq<MessageFile> -> seq<UserPart>)
    requires k < |ms| && !HandledRole(ms[k])
    requires forall i :: 0 <= i < k ==> HandledRole(ms[i])
    ensures Converted(ms, filesToParts) == Err(UnhandledRole(ms[k].role))
  {
    var prefix := ms[..k];
    ConvertedOk(prefix, filesToParts);
    assert ms[..k + 1] == prefix + [ms[k]];
    assert ms[..k + 1][..k] == prefix;
    ConvertedStopsAtError(ms, k, filesToParts);
  }

  /**
   * Output order follows input order: converting two lists one after the
   * other gives the concatenation of their conversions.
   */
  lemma {:induction false} ConvertedConcat(a: seq<UIMessage>, b: seq<UIMessage>, filesToParts: seq<MessageFile> -> seq<UserPart>)
    requires Converted(a, filesToParts).Ok? && Converted(b, filesToParts).Ok?
    ensures Converted(a + b, filesToParts) == Ok(Converted(a, filesToParts).value + Converted(b, filesToParts).value)
    decreases |b|
  {
    if b == [] {
      assert a + b == a;
      assert Converted(a, filesToParts).value + Converted(b, filesToParts).value == Converted(a, filesToParts).value;
    } else {
      var init := b[..|b| - 1];
      assert Converted(init, filesToParts).Ok?;
      ConvertedConcat(a, init, filesToParts);
      var out := ConvertMessage(b[|b| - 1], filesToParts).value;
      assert Converted(a, filesToParts).value + Converted(init, filesToParts).value + out
          == Converted(a, filesToParts).value + (Converted(init, filesToParts).value + out);
      assert (a + b)[..|a + b| - 1] == a + init;
      assert (a + b)[|a + b| - 1] == b[|b| - 1];
    }
  }

  /**
   * An assistant message with tool invocations becomes an assistant message
   * whose text part comes first, followed by the calls in invocation order,
   * and a tool message whose results match those calls one for one.
   */
  lemma AssistantWithTools(m: UIMessage, filesToParts: seq<MessageFile> -> seq<UserPart>)
    requires m.role == "assistant" && m.toolInvocations.Some?
    ensures var r := ConvertMessage(m, filesToParts);
      && r.Ok? && |r.value| == 2
      && r.value[0].CoreAssistant? && r.value[0].assistant.AssistantParts?
      && r.value[1].CoreTool?
      && var calls := r.value[0].assistant.parts;
         var results := r.value[1].results;
         && |calls| == |m.toolInvocations.value| + 1
         && calls[0] == AssistantText(m.content)
         && |results| == |m.toolInvocations.value|
         && forall i :: 0 <= i < |results| ==>
              && calls[i + 1].ToolCallPart?
              && calls[i + 1].toolCallId == results[i].toolCallId == m.toolInvocations.value[i].toolCallId
              && calls[i + 1].toolName == results[i].toolName == m.toolInvocations.value[i].toolName
              && calls[i + 1].args == results[i].args == m.toolInvocations.value[i].args
              && results[i].result == m.toolInvocations.value[i].result
  {
  }

  /** An assistant message without tool invocations becomes one assistant message with its content unchanged. */
  lemma AssistantWithoutTools(m: UIMessage, filesToParts: seq<MessageFile> -> seq<UserPart>)
    requires m.role == "assistant" && m.toolInvocations.None?
    ensures ConvertMessage(m, filesToParts) == Ok([CoreAssistant(AssistantString(m.content))])
  {
  }

  /**
   * A user message becomes exactly one user message: its content unchanged,
   * or, with attached files, a text part first and then the files' parts.
   */
  lemma UserMessage(m: UIMessage, filesToParts: seq<MessageFile> -> seq<UserPart>)
    requires m.role == "user"
    ensures var r := ConvertMessage(m, filesToParts);
      && r.Ok? && |r.value| == 1 && r.value[0].CoreUser?
      && (m.files.None? ==> r.value[0].user == UserString(m.content))
      && (m.files.Some? ==> r.value[0].user == UserParts([UserText(m.content)] + filesToParts(m.files.value)))
  {
  }
}
