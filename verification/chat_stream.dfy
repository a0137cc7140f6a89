/**
 * The client-side reassembly of a chat response in `getStreamedResponse`
 * (packages/core/react/use-chat.ts): decoded `(type, value)` lines are
 * folded into one message per prefix type, a snapshot is published after
 * every line, reading stops once the request is aborted, and at the end
 * the entries are split into messages and data.
 *
 * The fold is specified by `MergeLine`/`MergeAll` and the final pass by
 * `Finalize`; `GetStreamedResponse` is the loop the source runs, proved
 * equal to them. `Env.corrected` selects the corrected handling of an
 * already parsed `function_call` (see `AsWrittenRejectsFunctionCall`).
 */
module ChatStream {
  import opened Wrappers
  import opened Json
  import Seqs

  datatype Role = User | Assistant | System | Function

  /** A message's `function_call`: absent, the raw string from the stream, or what `JSON.parse` made of it. */
  datatype FunctionCallField = NoCall | RawCall(text: string) | ParsedCall(value: Json)

  /** A chat message; `name` is whatever was read from a parsed function call, absent when `undefined`. */
  datatype Message = Message(
    id: string,
    role: Role,
    content: string,
    createdAt: Option<int>,
    functionCall: FunctionCallField,
    name: Option<Json>)

  /** A thrown JavaScript error, by its `name` and `message`. */
  datatype JsError = JsError(name: string, message: string)

  const SyntaxError: JsError := JsError("SyntaxError", "JSON.parse: unexpected input")
  const NullNameError: JsError := JsError("TypeError", "Cannot read properties of null (reading 'name')")

  /** The prefix types of the stream protocol; prefixes other than these three are kept by their key. */
  datatype PrefixType = TextPrefix | FunctionCallPrefix | DataPrefix | OtherPrefix(key: string)

  /** One decoded line. */
  datatype Line = Line(kind: PrefixType, value: string)

  /**
   * What one response is folded with: the request's messages, the response's
   * `createdAt`, the ids `nanoid` hands out (the `i`-th new entry gets
   * `idSource(i)`), `JSON.parse` (`None` when it throws), the index of the
   * first line after which the abort reference is found `null`, and whether
   * a parsed `function_call` is left as it is (corrected) or re-parsed (as written).
   */
  datatype Env = Env(
    request: seq<Message>,
    createdAt: int,
    idSource: nat -> string,
    parse: string -> Option<Json>,
    abortAt: Option<nat>,
    corrected: bool)

  /** JavaScript truthiness of the field. */
  predicate FieldTruthy(f: FunctionCallField) {
    match f
    case NoCall => false
    case RawCall(s) => s != ""
    case ParsedCall(j) => Truthy(j)
  }

  /** The string `JSON.parse` reads when handed the field: a parsed value is first turned into a string. */
  function FieldText(f: FunctionCallField): string {
    match f
    case NoCall => "undefined"
    case RawCall(s) => s
    case ParsedCall(j) => ToJsString(j)
  }

  /** Whether the field is parsed: when truthy, and in the corrected reading only while it is still a string. */
  predicate ParseDue(env: Env, f: FunctionCallField) {
    FieldTruthy(f) && (!env.corrected || f.RawCall?)
  }

  function RoleFor(kind: PrefixType): Role {
    if kind == FunctionCallPrefix then Function else Assistant
  }

  datatype Status = Reading | Stopped | Failed(error: JsError)

  /**
   * The fold's state: the prefix types in first-seen order (the `Map`'s
   * insertion order), the entry per type, how many lines were merged, every
   * snapshot published so far, and whether reading goes on.
   */
  datatype Fold = Fold(
    order: seq<PrefixType>,
    entries: map<PrefixType, Message>,
    merged: nat,
    published: seq<seq<Message>>,
    status: Status)

  function Start(): Fold {
    Fold([], map[], 0, [], Reading)
  }

  /** Lines 165-178: append to the type's entry, or create it with a fresh id, its role and the shared `createdAt`. */
  function Accumulate(env: Env, order: seq<PrefixType>, entries: map<PrefixType, Message>, line: Line)
    : (r: (seq<PrefixType>, map<PrefixType, Message>))
    ensures line.kind in r.1
  {
    if line.kind in entries then
      (order, entries[line.kind := entries[line.kind].(content := entries[line.kind].content + line.value)])
    else
      (order + [line.kind],
       entries[line.kind := Message(env.idSource(|order|), RoleFor(line.kind), line.value, Some(env.createdAt), NoCall, None)])
  }

  /** Lines 180-182: a `function_call` line sets the entry's field to the line's own value. */
  function SetRawCall(entries: map<PrefixType, Message>, line: Line): map<PrefixType, Message>
    requires line.kind in entries
  {
    if line.kind == FunctionCallPrefix then
      entries[FunctionCallPrefix := entries[FunctionCallPrefix].(functionCall := RawCall(line.value))]
    else entries
  }

  /**
   * Lines 184-193: the request's messages, then the function-call entry,
   * then the text entry, each only if present; data and other entries are
   * not shown.
   */
  function Snapshot(request: seq<Message>, entries: map<PrefixType, Message>): (s: seq<Message>)
    ensures |s| == |request| + (if FunctionCallPrefix in entries then 1 else 0) + (if TextPrefix in entries then 1 else 0)
    ensures s[..|request|] == request
    ensures FunctionCallPrefix in entries ==> s[|request|] == entries[FunctionCallPrefix]
    ensures TextPrefix in entries ==> s[|s| - 1] == entries[TextPrefix]
  {
    request
      + (if FunctionCallPrefix in entries then [entries[FunctionCallPrefix]] else [])
      + (if TextPrefix in entries then [entries[TextPrefix]] else [])
  }

  /** `prefixMap.values()`: the entries in insertion order. */
  function Values(order: seq<PrefixType>, entries: map<PrefixType, Message>): seq<Message>
    decreases |order|
  {
    if order == [] then []
    else Values(order[..|order| - 1], entries) + (if order[|order| - 1] in entries then [entries[order[|order| - 1]]] else [])
  }

  /** With an entry for every type, the values are the entries in insertion order. */
  lemma {:induction false} ValuesInOrder(order: seq<PrefixType>, entries: map<PrefixType, Message>)
    requires forall k :: k in order ==> k in entries
    ensures |Values(order, entries)| == |order|
    ensures forall i :: 0 <= i < |order| ==> Values(order, entries)[i] == entries[order[i]]
    decreases |order|
  {
    if order != [] {
      ValuesInOrder(order[..|order| - 1], entries);
    }
  }

  /** The abort check after the line with index `i`. */
  predicate Aborted(env: Env, i: nat) {
    env.abortAt.Some? && i >= env.abortAt.value
  }

  /** Lines 165-193: the line merged into its type's entry, and the snapshot published. */
  function Absorb(env: Env, f: Fold, line: Line): Fold {
    var acc := Accumulate(env, f.order, f.entries, line);
    var entries := SetRawCall(acc.1, line);
    Fold(acc.0, entries, f.merged + 1, f.published + [Snapshot(env.request, entries)], Reading)
  }

  /** Lines 195-213: the abort check after the line with index `index`, then the parse of a due function call. */
  function CheckAndParse(env: Env, index: nat, g: Fold): Fold {
    if Aborted(env, index) then g.(status := Stopped)
    else if FunctionCallPrefix in g.entries && ParseDue(env, g.entries[FunctionCallPrefix].functionCall) then
      match env.parse(FieldText(g.entries[FunctionCallPrefix].functionCall))
      case None => g.(status := Failed(SyntaxError))
      case Some(j) =>
        var parsed := g.entries[FunctionCallPrefix := g.entries[FunctionCallPrefix].(functionCall := ParsedCall(j))];
        g.(entries := parsed, published := g.published + [env.request + Values(g.order, parsed)])
    else g
  }

  /** One iteration of the inner loop (lines 162-214); a fold that stopped reading stays as it is. */
  function MergeLine(env: Env, f: Fold, line: Line): Fold {
    if !f.status.Reading? then f
    else CheckAndParse(env, f.merged, Absorb(env, f, line))
  }

  /** What merging a line does to the entries and the snapshots. */
  lemma AbsorbFacts(env: Env, f: Fold, line: Line)
    requires Keyed(f)
    ensures var g := Absorb(env, f, line);
      && Keyed(g) && g.merged == f.merged + 1 && g.status == Reading
      && g.order == (if line.kind in f.entries then f.order else f.order + [line.kind])
      && g.entries.Keys == f.entries.Keys + {line.kind}
      && (forall k :: k in f.entries ==>
            && g.entries[k].content == f.entries[k].content + (if k == line.kind then line.value else "")
            && g.entries[k].id == f.entries[k].id
            && g.entries[k].role == f.entries[k].role
            && g.entries[k].createdAt == f.entries[k].createdAt)
      && (line.kind !in f.entries ==>
            && g.entries[line.kind].content == line.value
            && g.entries[line.kind].id == env.idSource(|f.order|)
            && g.entries[line.kind].role == RoleFor(line.kind)
            && g.entries[line.kind].createdAt == Some(env.createdAt))
      && (line.kind == FunctionCallPrefix ==> g.entries[FunctionCallPrefix].functionCall == RawCall(line.value))
      && g.published == f.published + [Snapshot(env.request, g.entries)]
  {
  }

  /** The abort check and the parse change only the function-call field, and publish at most one more snapshot. */
  lemma CheckAndParseFacts(env: Env, index: nat, g: Fold)
    requires Keyed(g) && g.status.Reading?
    ensures var r := CheckAndParse(env, index, g);
      && Keyed(r) && r.order == g.order && r.entries.Keys == g.entries.Keys && r.merged == g.merged
      && (forall k :: k in g.entries ==>
            && r.entries[k].content == g.entries[k].content
            && r.entries[k].id == g.entries[k].id
            && r.entries[k].role == g.entries[k].role
            && r.entries[k].createdAt == g.entries[k].createdAt)
      && (r.status == Stopped <==> Aborted(env, index))
  {
  }

  /** One step of a reading fold: the types it knows and whether it goes on. */
  lemma MergeLineShape(env: Env, f: Fold, line: Line)
    requires f.status.Reading? && Keyed(f)
    ensures var g := MergeLine(env, f, line);
      && Keyed(g) && g.merged == f.merged + 1
      && g.order == (if line.kind in f.entries then f.order else f.order + [line.kind])
      && g.entries.Keys == f.entries.Keys + {line.kind}
      && (g.status == Stopped <==> Aborted(env, f.merged))
  {
    AbsorbFacts(env, f, line);
    CheckAndParseFacts(env, f.merged, Absorb(env, f, line));
  }

  /** One step of a reading fold: what its entries hold. */
  lemma MergeLineContents(env: Env, f: Fold, line: Line)
    requires f.status.Reading? && Keyed(f)
    ensures var g := MergeLine(env, f, line);
      && (forall k :: k in f.entries ==>
            && k in g.entries
            && g.entries[k].content == f.entries[k].content + (if k == line.kind then line.value else "")
            && g.entries[k].id == f.entries[k].id
            && g.entries[k].role == f.entries[k].role
            && g.entries[k].createdAt == f.entries[k].createdAt)
      && (line.kind !in f.entries ==>
            && line.kind in g.entries
            && g.entries[line.kind].content == line.value
            && g.entries[line.kind].id == env.idSource(|f.order|)
            && g.entries[line.kind].role == RoleFor(line.kind)
            && g.entries[line.kind].createdAt == Some(env.createdAt))
  {
    AbsorbFacts(env, f, line);
    CheckAndParseFacts(env, f.merged, Absorb(env, f, line));
  }

  /** `s` begins with the request's messages. */
  predicate StartsWith(request: seq<Message>, s: seq<Message>) {
    |request| <= |s| && s[..|request|] == request
  }

  /** The abort check and the parse publish at most one snapshot, which begins with the request. */
  lemma CheckAndParsePublished(env: Env, index: nat, g: Fold)
    ensures var r := CheckAndParse(env, index, g);
      && |g.published| <= |r.published| <= |g.published| + 1
      && (forall i :: 0 <= i < |g.published| ==> r.published[i] == g.published[i])
      && (forall i :: |g.published| <= i < |r.published| ==> StartsWith(env.request, r.published[i]))
  {
    var r := CheckAndParse(env, index, g);
    if |r.published| > |g.published| {
      assert r.published[|g.published|] == env.request + Values(r.order, r.entries);
    }
  }

  /** One step of a reading fold: the snapshots it publishes. */
  lemma MergeLinePublished(env: Env, f: Fold, line: Line)
    requires f.status.Reading?
    ensures var g := MergeLine(env, f, line);
      && |f.published| < |g.published| <= |f.published| + 2
      && (forall i :: 0 <= i < |f.published| ==> g.published[i] == f.published[i])
      && (forall i :: |f.published| <= i < |g.published| ==> StartsWith(env.request, g.published[i]))
  {
    var a := Absorb(env, f, line);
    assert a.published == f.published + [Snapshot(env.request, a.entries)];
    assert StartsWith(env.request, a.published[|f.published|]);
    CheckAndParsePublished(env, f.merged, a);
  }

  /** The fold over all lines, in arrival order. */
  function MergeAll(env: Env, lines: seq<Line>): Fold
    decreases |lines|
  {
    if lines == [] then Start()
    else MergeLine(env, MergeAll(env, lines[..|lines| - 1]), lines[|lines| - 1])
  }

  /** The lines of all batches, in order. */
  function Flatten(batches: seq<seq<Line>>): seq<Line>
    decreases |batches|
  {
    if batches == [] then [] else Flatten(batches[..|batches| - 1]) + batches[|batches| - 1]
  }

  /** `parsedFunctionCall.name`: reading it from `null` throws; a value without it gives `undefined`. */
  function NameOf(j: Json): (r: Result<Option<Json>, JsError>)
    ensures r.Err? <==> j.JNull?
    ensures j.JObj? ==> r == Ok(Property(j.fields, "name"))
  {
    match j
    case JNull => Err(NullNameError)
    case JObj(fields) => Ok(Property(fields, "name"))
    case _ => Ok(None)
  }

  /** Lines 218-223 for one entry: a truthy `function_call` is parsed and the call's name copied to the message. */
  function FinishItem(env: Env, item: Message): Result<Message, JsError> {
    if !FieldTruthy(item.functionCall) then Ok(item)
    else
      var parsed := if env.corrected && item.functionCall.ParsedCall? then Some(item.functionCall.value)
                    else env.parse(FieldText(item.functionCall));
      match parsed
      case None => Err(SyntaxError)
      case Some(j) =>
        match NameOf(j)
        case Err(e) => Err(e)
        case Ok(n) => Ok(item.(functionCall := ParsedCall(j), name := n))
  }

  datatype StreamedResponse = StreamedResponse(messages: seq<Message>, data: seq<Message>)

  /** The final pass: the entries handed to `onFinish` so far and the result. */
  datatype Finished = Finished(finished: seq<Message>, result: Result<StreamedResponse, JsError>)

  /** Lines 217-235: every entry in first-seen order is finished, and `data` entries go to `data`, all others to `messages`. */
  function Finalize(env: Env, order: seq<PrefixType>, entries: map<PrefixType, Message>): Finished
    decreases |order|
  {
    if order == [] then Finished([], Ok(StreamedResponse([], [])))
    else
      var prev := Finalize(env, order[..|order| - 1], entries);
      var k := order[|order| - 1];
      if prev.result.Err? || k !in entries then prev
      else
        match FinishItem(env, entries[k])
        case Err(e) => Finished(prev.finished, Err(e))
        case Ok(item) =>
          var r := prev.result.value;
          Finished(prev.finished + [item],
            Ok(if k == DataPrefix then StreamedResponse(r.messages, r.data + [item])
               else StreamedResponse(r.messages + [item], r.data)))
  }

  /** Everything one response produces: the published snapshots, the entries passed to `onFinish`, and the result. */
  datatype Outcome = Outcome(published: seq<seq<Message>>, finished: seq<Message>, result: Result<StreamedResponse, JsError>)

  /** The reference definition of `getStreamedResponse` once the response body is readable. */
  function Streamed(env: Env, batches: seq<seq<Line>>): Outcome {
    var f := MergeAll(env, Flatten(batches));
    if f.status.Failed? then Outcome(f.published, [], Err(f.status.error))
    else
      var fin := Finalize(env, f.order, f.entries);
      Outcome(f.published, fin.finished, fin.result)
  }

  /** A fold that stopped reading, or failed, ignores every later line. */
  lemma {:induction false} StoppedFoldIgnoresRest(env: Env, lines: seq<Line>, rest: seq<Line>)
    requires !MergeAll(env, lines).status.Reading?
    ensures MergeAll(env, lines + rest) == MergeAll(env, lines)
    decreases |rest|
  {
    if rest != [] {
      var init := rest[..|rest| - 1];
      StoppedFoldIgnoresRest(env, lines, init);
      assert (lines + rest)[..|lines + rest| - 1] == lines + init;
      assert (lines + rest)[|lines + rest| - 1] == rest[|rest| - 1];
    } else {
      assert lines + rest == lines;
    }
  }

  /** A failed final pass stays failed. */
  lemma {:induction false} FailedFinalizeIgnoresRest(env: Env, order: seq<PrefixType>, j: nat, entries: map<PrefixType, Message>)
    requires j <= |order|
    requires Finalize(env, order[..j], entries).result.Err?
    ensures Finalize(env, order, entries) == Finalize(env, order[..j], entries)
    decreases |order| - j
  {
    if j < |order| {
      assert order[..|order| - 1][..j] == order[..j];
      FailedFinalizeIgnoresRest(env, order[..|order| - 1], j, entries);
    } else {
      assert order[..j] == order;
    }
  }

  /** The fold keeps an entry for every type it has seen. */
  predicate Keyed(f: Fold) {
    (forall k :: k in f.order ==> k in f.entries) && (forall k :: k in f.entries ==> k in f.order)
  }

  /** The body of the inner loop, lines 165-213, on one line. */
  method MergeOne(env: Env, f: Fold, line: Line) returns (g: Fold)
    requires f.status.Reading? && Keyed(f)
    ensures g == MergeLine(env, f, line) && Keyed(g)
  {
    var order := f.order;
    var entries := f.entries;
    if line.kind in entries {
      entries := entries[line.kind := entries[line.kind].(content := entries[line.kind].content + line.value)];
    } else {
      entries := entries[line.kind := Message(env.idSource(|order|), RoleFor(line.kind), line.value, Some(env.createdAt), NoCall, None)];
      order := order + [line.kind];
    }
    if line.kind == FunctionCallPrefix {
      entries := entries[FunctionCallPrefix := entries[FunctionCallPrefix].(functionCall := RawCall(line.value))];
    }
    var published := f.published + [Snapshot(env.request, entries)];
    ghost var absorbed := Fold(order, entries, f.merged + 1, published, Reading);
    assert absorbed == Absorb(env, f, line);
    if Aborted(env, f.merged) {
      return Fold(order, entries, f.merged + 1, published, Stopped);
    }
    if FunctionCallPrefix in entries && ParseDue(env, entries[FunctionCallPrefix].functionCall) {
      var parsed := env.parse(FieldText(entries[FunctionCallPrefix].functionCall));
      if parsed.None? {
        return Fold(order, entries, f.merged + 1, published, Failed(SyntaxError));
      }
      entries := entries[FunctionCallPrefix := entries[FunctionCallPrefix].(functionCall := ParsedCall(parsed.value))];
      published := published + [env.request + Values(order, entries)];
    }
    return Fold(order, entries, f.merged + 1, published, Reading);
  }

  /** Merging one more line is one more step of the fold. */
  lemma MergeAllSnoc(env: Env, lines: seq<Line>, line: Line)
    ensures MergeAll(env, lines + [line]) == MergeLine(env, MergeAll(env, lines), line)
  {
    assert (lines + [line])[..|lines + [line]| - 1] == lines;
  }

  /** One more line of a batch is one more step of the fold. */
  lemma MergeNext(env: Env, before: seq<Line>, lines: seq<Line>, i: nat)
    requires i < |lines|
    ensures MergeAll(env, before + lines[..i + 1]) == MergeLine(env, MergeAll(env, before + lines[..i]), lines[i])
  {
    assert before + lines[..i + 1] == (before + lines[..i]) + [lines[i]];
    MergeAllSnoc(env, before + lines[..i], lines[i]);
  }

  /** A batch read up to its end, or up to a stop, has been read in full. */
  lemma BatchDone(env: Env, before: seq<Line>, lines: seq<Line>, i: nat)
    requires i <= |lines|
    requires i == |lines| || !MergeAll(env, before + lines[..i]).status.Reading?
    ensures MergeAll(env, before + lines) == MergeAll(env, before + lines[..i])
  {
    if i == |lines| {
      assert lines[..i] == lines;
    } else {
      StoppedFoldIgnoresRest(env, before + lines[..i], lines[i..]);
      assert before + lines[..i] + lines[i..] == before + lines;
    }
  }

  /** The inner loop, lines 162-214: the lines of one batch, until reading stops or fails. */
  method ReadBatch(env: Env, ghost before: seq<Line>, start: Fold, lines: seq<Line>) returns (fold: Fold)
    requires start == MergeAll(env, before) && start.status.Reading? && Keyed(start)
    ensures fold == MergeAll(env, before + lines) && Keyed(fold)
  {
    fold := start;
    var i := 0;
    assert before + lines[..0] == before;
    while i < |lines| && fold.status.Reading?
      invariant 0 <= i <= |lines|
      invariant Keyed(fold)
      invariant MergeAll(env, before + lines[..i]) == fold
    {
      MergeNext(env, before, lines, i);
      fold := MergeOne(env, fold, lines[i]);
      i := i + 1;
    }
    BatchDone(env, before, lines, i);
  }

  /** The reading loop, lines 154-215: batch after batch, until the stream ends, stops or fails. */
  method ReadAll(env: Env, batches: seq<seq<Line>>) returns (fold: Fold)
    ensures fold == MergeAll(env, Flatten(batches)) && Keyed(fold)
  {
    fold := Start();
    var b := 0;
    while b < |batches| && fold.status.Reading?
      invariant 0 <= b <= |batches|
      invariant Keyed(fold)
      invariant MergeAll(env, Flatten(batches[..b])) == fold
    {
      assert batches[..b + 1][..b] == batches[..b];
      assert Flatten(batches[..b + 1]) == Flatten(batches[..b]) + batches[b];
      fold := ReadBatch(env, Flatten(batches[..b]), fold, batches[b]);
      b := b + 1;
    }
    if fold.status.Reading? {
      assert batches[..b] == batches;
    } else {
      FlattenPrefix(batches, b);
      StoppedFoldIgnoresRest(env, Flatten(batches[..b]), Flatten(batches)[|Flatten(batches[..b])|..]);
    }
  }

  /** The final loop, lines 217-235. */
  method FinalizeEntries(env: Env, order: seq<PrefixType>, entries: map<PrefixType, Message>) returns (fin: Finished)
    requires forall k :: k in order ==> k in entries
    ensures fin == Finalize(env, order, entries)
  {
    var responseMessages: seq<Message> := [];
    var responseData: seq<Message> := [];
    var finished: seq<Message> := [];
    for j := 0 to |order|
      invariant Finalize(env, order[..j], entries) == Finished(finished, Ok(StreamedResponse(responseMessages, responseData)))
    {
      assert order[..j + 1][..j] == order[..j];
      var k := order[j];
      var item := entries[k];
      if FieldTruthy(item.functionCall) {
        var parsed := if env.corrected && item.functionCall.ParsedCall? then Some(item.functionCall.value)
                      else env.parse(FieldText(item.functionCall));
        if parsed.None? {
          FailedFinalizeIgnoresRest(env, order, j + 1, entries);
          return Finished(finished, Err(SyntaxError));
        }
        var name := NameOf(parsed.value);
        if name.Err? {
          FailedFinalizeIgnoresRest(env, order, j + 1, entries);
          return Finished(finished, Err(name.error));
        }
        item := item.(functionCall := ParsedCall(parsed.value), name := name.value);
      }
      finished := finished + [item];
      if k == DataPrefix {
        responseData := responseData + [item];
      } else {
        responseMessages := responseMessages + [item];
      }
    }
    assert order[..|order|] == order;
    return Finished(finished, Ok(StreamedResponse(responseMessages, responseData)));
  }

  /** `getStreamedResponse` from the first read on. */
  method GetStreamedResponse(env: Env, batches: seq<seq<Line>>) returns (out: Outcome)
    ensures out == Streamed(env, batches)
  {
    var fold := ReadAll(env, batches);
    if fold.status.Failed? {
      return Outcome(fold.published, [], Err(fold.status.error));
    }
    var fin := FinalizeEntries(env, fold.order, fold.entries);
    return Outcome(fold.published, fin.finished, fin.result);
  }

  /** The lines of the first `b` batches are a prefix of all lines. */
  lemma {:induction false} FlattenPrefix(batches: seq<seq<Line>>, b: nat)
    requires b <= |batches|
    ensures |Flatten(batches[..b])| <= |Flatten(batches)|
    ensures Flatten(batches) == Flatten(batches[..b]) + Flatten(batches)[|Flatten(batches[..b])|..]
    decreases |batches| - b
  {
    if b == |batches| {
      assert batches[..b] == batches;
    } else {
      var init := batches[..|batches| - 1];
      FlattenPrefix(init, b);
      assert init[..b] == batches[..b];
    }
  }

  /** The prefix types of `lines` in order of first appearance. */
  function FirstSeen(lines: seq<Line>): seq<PrefixType>
    decreases |lines|
  {
    if lines == [] then []
    else
      var seen := FirstSeen(lines[..|lines| - 1]);
      var k := lines[|lines| - 1].kind;
      if k in seen then seen else seen + [k]
  }

  /** The values of the lines of type `kind`, concatenated in arrival order. */
  function ContentOf(lines: seq<Line>, kind: PrefixType): string
    decreases |lines|
  {
    if lines == [] then ""
    else ContentOf(lines[..|lines| - 1], kind) + (if lines[|lines| - 1].kind == kind then lines[|lines| - 1].value else "")
  }

  /** How far the fold got: all lines while it reads on, a prefix once it stopped or failed. */
  lemma {:induction false} MergeAllProgress(env: Env, lines: seq<Line>)
    ensures var f := MergeAll(env, lines);
      && Keyed(f)
      && f.merged <= |lines|
      && (f.status.Reading? ==> f.merged == |lines|)
    decreases |lines|
  {
    if lines != [] {
      var init := lines[..|lines| - 1];
      MergeAllProgress(env, init);
      var f := MergeAll(env, init);
      if f.status.Reading? {
        MergeLineShape(env, f, lines[|lines| - 1]);
      }
    }
  }

  /** At least one snapshot per merged line and at most two, each beginning with the request's messages. */
  lemma {:induction false} MergeAllSnapshots(env: Env, lines: seq<Line>)
    ensures var f := MergeAll(env, lines);
      && f.merged <= |f.published| <= 2 * f.merged
      && forall i :: 0 <= i < |f.published| ==> StartsWith(env.request, f.published[i])
    decreases |lines|
  {
    if lines != [] {
      var init := lines[..|lines| - 1];
      MergeAllSnapshots(env, init);
      MergeAllProgress(env, init);
      var f := MergeAll(env, init);
      if f.status.Reading? {
        MergeLineShape(env, f, lines[|lines| - 1]);
        MergeLinePublished(env, f, lines[|lines| - 1]);
      }
    }
  }

  /** A type that has not been seen has no content. */
  lemma {:induction false} UnseenHasNoContent(lines: seq<Line>, k: PrefixType)
    requires k !in FirstSeen(lines)
    ensures ContentOf(lines, k) == ""
    decreases |lines|
  {
    if lines != [] {
      UnseenHasNoContent(lines[..|lines| - 1], k);
    }
  }

  /**
   * The types a fold knows after merging `m`: one entry per type, in
   * first-seen order, each with the id `nanoid` drew when the type first
   * appeared.
   */
  predicate OrderInv(env: Env, m: seq<Line>, f: Fold) {
    && f.order == FirstSeen(m)
    && Seqs.Distinct(f.order)
    && Keyed(f)
    && (forall i :: 0 <= i < |f.order| ==> f.order[i] in f.entries && f.entries[f.order[i]].id == env.idSource(i))
  }

  /**
   * What a fold's entries hold after merging `m`: each type's values
   * concatenated in arrival order, the role `function` exactly for
   * `function_call`, and the response's `createdAt`.
   */
  predicate EntriesInv(env: Env, m: seq<Line>, f: Fold) {
    forall k :: k in f.entries ==>
      && f.entries[k].content == ContentOf(m, k)
      && f.entries[k].role == RoleFor(k)
      && f.entries[k].createdAt == Some(env.createdAt)
  }

  /** The order invariant, one merged line further on. */
  lemma OrderStep(env: Env, lines: seq<Line>, f: Fold, g: Fold)
    requires lines != []
    requires OrderInv(env, lines[..|lines| - 1], f) && Keyed(g)
    requires var line := lines[|lines| - 1];
      && g.order == (if line.kind in f.entries then f.order else f.order + [line.kind])
      && (forall k :: k in f.entries ==> k in g.entries && g.entries[k].id == f.entries[k].id)
      && (line.kind !in f.entries ==> line.kind in g.entries && g.entries[line.kind].id == env.idSource(|f.order|))
    ensures OrderInv(env, lines, g)
  {
    var line := lines[|lines| - 1];
    OrderStepSeen(lines, f.order, g.order, line.kind in f.entries);
    OrderStepIds(env, f, g, line.kind);
  }

  /** The first-seen order and its distinctness, one line further on. */
  lemma OrderStepSeen(lines: seq<Line>, before: seq<PrefixType>, after: seq<PrefixType>, known: bool)
    requires lines != []
    requires before == FirstSeen(lines[..|lines| - 1]) && Seqs.Distinct(before)
    requires known <==> lines[|lines| - 1].kind in before
    requires after == (if known then before else before + [lines[|lines| - 1].kind])
    ensures after == FirstSeen(lines) && Seqs.Distinct(after)
  {
    if !known {
      Seqs.DistinctSnoc(before, lines[|lines| - 1].kind);
    }
  }

  /** The ids by position, one line further on. */
  lemma OrderStepIds(env: Env, f: Fold, g: Fold, kind: PrefixType)
    requires Keyed(f) && Keyed(g)
    requires forall i :: 0 <= i < |f.order| ==> f.order[i] in f.entries && f.entries[f.order[i]].id == env.idSource(i)
    requires g.order == (if kind in f.entries then f.order else f.order + [kind])
    requires forall k :: k in f.entries ==> k in g.entries && g.entries[k].id == f.entries[k].id
    requires kind !in f.entries ==> kind in g.entries && g.entries[kind].id == env.idSource(|f.order|)
    ensures forall i :: 0 <= i < |g.order| ==> g.order[i] in g.entries && g.entries[g.order[i]].id == env.idSource(i)
  {
    forall i | 0 <= i < |g.order|
      ensures g.order[i] in g.entries && g.entries[g.order[i]].id == env.idSource(i)
    {
      if i < |f.order| {
        assert g.order[i] == f.order[i];
      }
    }
  }

  /** The entries invariant, one merged line further on. */
  lemma EntriesStep(env: Env, lines: seq<Line>, f: Fold, g: Fold)
    requires lines != []
    requires EntriesInv(env, lines[..|lines| - 1], f) && OrderInv(env, lines[..|lines| - 1], f)
    requires var line := lines[|lines| - 1];
      && g.entries.Keys == f.entries.Keys + {line.kind}
      && (forall k :: k in f.entries ==>
            && g.entries[k].content == f.entries[k].content + (if k == line.kind then line.value else "")
            && g.entries[k].role == f.entries[k].role
            && g.entries[k].createdAt == f.entries[k].createdAt)
      && (line.kind !in f.entries ==>
            && g.entries[line.kind].content == line.value
            && g.entries[line.kind].role == RoleFor(line.kind)
            && g.entries[line.kind].createdAt == Some(env.createdAt))
    ensures EntriesInv(env, lines, g)
  {
    var init := lines[..|lines| - 1];
    forall k | k in g.entries
      ensures g.entries[k].content == ContentOf(lines, k)
    {
      if k !in f.entries {
        UnseenHasNoContent(init, k);
      }
    }
  }

  /** The fold keeps the order invariant for the lines it merged. */
  lemma {:induction false} MergeAllOrder(env: Env, lines: seq<Line>)
    ensures MergeAll(env, lines).merged <= |lines|
    ensures OrderInv(env, lines[..MergeAll(env, lines).merged], MergeAll(env, lines))
    decreases |lines|
  {
    MergeAllProgress(env, lines);
    if lines != [] {
      var init := lines[..|lines| - 1];
      var line := lines[|lines| - 1];
      MergeAllOrder(env, init);
      MergeAllProgress(env, init);
      var f := MergeAll(env, init);
      var g := MergeAll(env, lines);
      if f.status.Reading? {
        Seqs.SliceAll(init);
        MergeLineShape(env, f, line);
        MergeLineContents(env, f, line);
        OrderStep(env, lines, f, g);
        Seqs.SliceAll(lines);
      } else {
        Seqs.SliceOfInit(lines, f.merged);
      }
    } else {
      assert lines[..0] == [];
    }
  }

  /** The fold keeps the entries invariant for the lines it merged. */
  lemma {:induction false} MergeAllEntries(env: Env, lines: seq<Line>)
    ensures MergeAll(env, lines).merged <= |lines|
    ensures EntriesInv(env, lines[..MergeAll(env, lines).merged], MergeAll(env, lines))
    decreases |lines|
  {
    MergeAllProgress(env, lines);
    if lines != [] {
      var init := lines[..|lines| - 1];
      var line := lines[|lines| - 1];
      MergeAllEntries(env, init);
      MergeAllOrder(env, init);
      MergeAllProgress(env, init);
      var f := MergeAll(env, init);
      var g := MergeAll(env, lines);
      if f.status.Reading? {
        Seqs.SliceAll(init);
        MergeLineShape(env, f, line);
        MergeLineContents(env, f, line);
        EntriesStep(env, lines, f, g);
        Seqs.SliceAll(lines);
      } else {
        Seqs.SliceOfInit(lines, f.merged);
      }
    }
  }

  /**
   * A `function_call` line: the entry's field becomes the line's own value
   * (not the accumulated content), and, unless the request was aborted,
   * a non-empty value is replaced by its parse, or reading fails when it
   * does not parse.
   */
  lemma FunctionCallLine(env: Env, f: Fold, value: string)
    requires f.status.Reading? && Keyed(f)
    ensures var g := MergeLine(env, f, Line(FunctionCallPrefix, value));
      && FunctionCallPrefix in g.entries
      && |g.published| > |f.published| && |g.published[|f.published|]| > |env.request|
      && g.published[|f.published|][|env.request|].functionCall == RawCall(value)
      && (Aborted(env, f.merged) ==> g.status == Stopped && g.entries[FunctionCallPrefix].functionCall == RawCall(value))
      && (!Aborted(env, f.merged) && value == "" ==> g.status == Reading && g.entries[FunctionCallPrefix].functionCall == RawCall(""))
      && (!Aborted(env, f.merged) && value != "" && env.parse(value).None? ==> g.status == Failed(SyntaxError))
      && (!Aborted(env, f.merged) && value != "" && env.parse(value).Some? ==>
            g.status == Reading && g.entries[FunctionCallPrefix].functionCall == ParsedCall(env.parse(value).value))
  {
    var line := Line(FunctionCallPrefix, value);
    var g := Absorb(env, f, line);
    assert MergeLine(env, f, line).published[|f.published|] == g.published[|f.published|];
  }

  /** Once the abort reference is found `null` after line `k`, reading stops there and keeps what was merged. */
  lemma StopsAfterAbortLine(env: Env, lines: seq<Line>, k: nat)
    requires env.abortAt == Some(k) && k < |lines|
    requires MergeAll(env, lines[..k]).status.Reading?
    ensures MergeAll(env, lines) == MergeAll(env, lines[..k + 1])
    ensures MergeAll(env, lines).status == Stopped && MergeAll(env, lines).merged == k + 1
  {
    MergeAllProgress(env, lines[..k]);
    MergeLineShape(env, MergeAll(env, lines[..k]), lines[k]);
    MergeAllSnoc(env, lines[..k], lines[k]);
    Seqs.SliceSnoc(lines, k);
    StoppedFoldIgnoresRest(env, lines[..k + 1], lines[k + 1..]);
    Seqs.SliceJoin(lines, k + 1);
  }

  /** Splits finished entries by their prefix type: `data` entries on one side, all others on the other, in order. */
  function Partition(order: seq<PrefixType>, items: seq<Message>): (r: StreamedResponse)
    requires |order| == |items|
    ensures |r.messages| + |r.data| == |items|
    ensures multiset(r.messages) + multiset(r.data) == multiset(items)
    ensures |r.data| == multiset(order)[DataPrefix]
    ensures DataPrefix !in order ==> r == StreamedResponse(items, [])
    decreases |order|
  {
    if order == [] then StreamedResponse([], [])
    else
      Seqs.InitLast(order);
      Seqs.InitLast(items);
      var r := Partition(order[..|order| - 1], items[..|items| - 1]);
      if order[|order| - 1] == DataPrefix then StreamedResponse(r.messages, r.data + [items[|items| - 1]])
      else StreamedResponse(r.messages + [items[|items| - 1]], r.data)
  }

  /** Finishing an entry keeps its id, role, content and `createdAt`, and leaves a truthy call parsed. */
  lemma FinishItemKeeps(env: Env, item: Message)
    ensures var r := FinishItem(env, item);
      && (!FieldTruthy(item.functionCall) ==> r == Ok(item))
      && (r.Ok? ==>
            r.value.id == item.id && r.value.role == item.role
            && r.value.content == item.content && r.value.createdAt == item.createdAt)
      && (r.Ok? && FieldTruthy(item.functionCall) ==> r.value.functionCall.ParsedCall?)
  {
  }

  /**
   * The final pass hands `onFinish` the entries in first-seen order, each
   * keeping its id, role, content and `createdAt`.
   */
  lemma {:induction false} FinalizeKeeps(env: Env, order: seq<PrefixType>, entries: map<PrefixType, Message>)
    requires forall k :: k in order ==> k in entries
    ensures var fin := Finalize(env, order, entries);
      && |fin.finished| <= |order|
      && (forall i :: 0 <= i < |fin.finished| ==>
            var e := entries[order[i]];
            fin.finished[i].id == e.id && fin.finished[i].role == e.role
            && fin.finished[i].content == e.content && fin.finished[i].createdAt == e.createdAt)
    decreases |order|
  {
    if order != [] {
      var init := order[..|order| - 1];
      FinalizeKeeps(env, init, entries);
      FinalizeLength(env, init, entries);
      var prev := Finalize(env, init, entries);
      var k := order[|order| - 1];
      FinishItemKeeps(env, entries[k]);
      var fin := Finalize(env, order, entries);
      forall i | 0 <= i < |fin.finished|
        ensures var e := entries[order[i]];
          fin.finished[i].id == e.id && fin.finished[i].role == e.role
          && fin.finished[i].content == e.content && fin.finished[i].createdAt == e.createdAt
      {
        if i < |prev.finished| {
          assert fin.finished[i] == prev.finished[i];
          assert order[i] == init[i];
        } else {
          assert fin.finished[i] == FinishItem(env, entries[k]).value;
        }
      }
    }
  }

  /** The final pass finishes every entry when it succeeds, and stops before the last one when it fails. */
  lemma {:induction false} FinalizeLength(env: Env, order: seq<PrefixType>, entries: map<PrefixType, Message>)
    requires forall k :: k in order ==> k in entries
    ensures var fin := Finalize(env, order, entries);
      && (fin.result.Ok? ==> |fin.finished| == |order|)
      && (fin.result.Err? ==> |fin.finished| < |order|)
    decreases |order|
  {
    if order != [] {
      FinalizeLength(env, order[..|order| - 1], entries);
    }
  }

  /**
   * When the final pass succeeds, `onFinish` has seen every entry (data
   * entries included) and the result splits them into messages and data;
   * when it fails, it stopped before the last entry.
   */
  lemma {:induction false} FinalizePartition(env: Env, order: seq<PrefixType>, entries: map<PrefixType, Message>)
    requires forall k :: k in order ==> k in entries
    ensures var fin := Finalize(env, order, entries);
      && (fin.result.Ok? ==>
            |fin.finished| == |order| && fin.result.value == Partition(order, fin.finished))
      && (fin.result.Err? ==> |fin.finished| < |order|)
    decreases |order|
  {
    if order != [] {
      var init := order[..|order| - 1];
      FinalizePartition(env, init, entries);
      var prev := Finalize(env, init, entries);
      var k := order[|order| - 1];
      var fin := Finalize(env, order, entries);
      if prev.result.Ok? && FinishItem(env, entries[k]).Ok? {
        assert fin.finished[..|fin.finished| - 1] == prev.finished;
      }
    }
  }

  /** The fold of a single `function_call` line read to the end. */
  lemma SingleFunctionCall(env: Env, value: string)
    requires env.abortAt.None? && value != ""
    ensures var f := MergeAll(env, [Line(FunctionCallPrefix, value)]);
      && f.order == [FunctionCallPrefix]
      && FunctionCallPrefix in f.entries
      && (env.parse(value).None? ==> f.status == Failed(SyntaxError))
      && (env.parse(value).Some? ==>
            f.status == Reading
            && f.entries[FunctionCallPrefix] ==
                 Message(env.idSource(0), Function, value, Some(env.createdAt), ParsedCall(env.parse(value).value), None))
  {
    MergeAllSnoc(env, [], Line(FunctionCallPrefix, value));
    assert [] + [Line(FunctionCallPrefix, value)] == [Line(FunctionCallPrefix, value)];
    FunctionCallLine(env, Start(), value);
  }

  /** The final pass over a single entry. */
  lemma FinalizeSingle(env: Env, k: PrefixType, entries: map<PrefixType, Message>)
    requires k in entries
    ensures FinishItem(env, entries[k]).Err? ==> Finalize(env, [k], entries).result == Err(FinishItem(env, entries[k]).error)
    ensures FinishItem(env, entries[k]).Ok? && k != DataPrefix ==>
      Finalize(env, [k], entries).result == Ok(StreamedResponse([FinishItem(env, entries[k]).value], []))
    ensures FinishItem(env, entries[k]).Ok? && k == DataPrefix ==>
      Finalize(env, [k], entries).result == Ok(StreamedResponse([], [FinishItem(env, entries[k]).value]))
  {
    assert [k][..0] == [];
    assert Finalize(env, [k][..0], entries) == Finished([], Ok(StreamedResponse([], [])));
    var r := FinishItem(env, entries[k]);
    if r.Ok? {
      assert [] + [r.value] == [r.value];
    }
  }

  /**
   * As written, a streamed function call can never be delivered: the field
   * already replaced by its parse is handed to `JSON.parse` again at the
   * end, which reads the string `[object Object]` and throws.
   */
  lemma AsWrittenRejectsFunctionCall(env: Env, value: string, fields: seq<(string, Json)>)
    requires !env.corrected && env.abortAt.None? && value != ""
    requires env.parse(value) == Some(JObj(fields))
    requires env.parse("[object Object]").None?
    ensures Streamed(env, [[Line(FunctionCallPrefix, value)]]).result == Err(SyntaxError)
  {
    assert Flatten([[Line(FunctionCallPrefix, value)]]) == [Line(FunctionCallPrefix, value)] by {
      assert [[Line(FunctionCallPrefix, value)]][..0] == [];
    }
    SingleFunctionCall(env, value);
    var f := MergeAll(env, [Line(FunctionCallPrefix, value)]);
    FinalizeSingle(env, FunctionCallPrefix, f.entries);
  }

  /**
   * Parsing the call only while it is still a string delivers it: one
   * `function` message holding the parsed call and its name.
   */
  lemma CorrectedDeliversFunctionCall(env: Env, value: string, fields: seq<(string, Json)>)
    requires env.corrected && env.abortAt.None? && value != ""
    requires env.parse(value) == Some(JObj(fields))
    ensures Streamed(env, [[Line(FunctionCallPrefix, value)]]).result ==
      Ok(StreamedResponse(
        [Message(env.idSource(0), Function, value, Some(env.createdAt), ParsedCall(JObj(fields)), Property(fields, "name"))],
        []))
  {
    assert Flatten([[Line(FunctionCallPrefix, value)]]) == [Line(FunctionCallPrefix, value)] by {
      assert [[Line(FunctionCallPrefix, value)]][..0] == [];
    }
    SingleFunctionCall(env, value);
    var f := MergeAll(env, [Line(FunctionCallPrefix, value)]);
    FinalizeSingle(env, FunctionCallPrefix, f.entries);
  }
}
