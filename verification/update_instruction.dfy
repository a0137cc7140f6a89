/**
 * Update-instruction tool results
 * (packages/ai/core/generate-text/update-instruction-tool-result.ts): an
 * instruction delta is tagged with the `Symbol.for('vercel.ai.validator')`
 * property set to `true`, and a value is recognised by that tag.
 */
module UpdateInstruction {
  import opened JsRuntime

  const ValidatorKey: string := "vercel.ai.validator"

  /**
   * `experimental_updateInstructionToolResult`: a fresh plain object with
   * the tag first and then the delta's own properties spread over it, so a
   * tag already on the delta wins.
   */
  function Tag(delta: JsObject): (r: JsObject)
    ensures r.props == delta.props
    ensures forall k :: k in delta.symbols ==> k in r.symbols && r.symbols[k] == delta.symbols[k]
    ensures r.symbols.Keys == delta.symbols.Keys + {ValidatorKey}
    ensures ValidatorKey !in delta.symbols ==> r.symbols[ValidatorKey] == Bool(true)
  {
    JsObject({"Object"}, delta.props, map[ValidatorKey := Bool(true)] + delta.symbols)
  }

  /** `isUpdateInstructionToolResult`. */
  predicate IsUpdateInstructionToolResult(v: JsValue) {
    TypeOf(v) == "object" && !v.Null? && ValidatorKey in v.o.symbols && v.o.symbols[ValidatorKey] == Bool(true)
  }

  /**
   * The round trip: a tagged delta is recognised exactly when the delta
   * does not carry a tag of its own set to something other than `true`;
   * in particular every delta without symbol-keyed properties is.
   */
  lemma TagRoundTrip(delta: JsObject)
    ensures IsUpdateInstructionToolResult(Obj(Tag(delta))) <==>
      (ValidatorKey !in delta.symbols || delta.symbols[ValidatorKey] == Bool(true))
    ensures delta.symbols == map[] ==> IsUpdateInstructionToolResult(Obj(Tag(delta)))
  {
  }

  /** Only objects are recognised: `null`, `undefined`, booleans, numbers and strings are not. */
  lemma RejectsNonObjects(v: JsValue)
    requires !v.Obj?
    ensures !IsUpdateInstructionToolResult(v)
  {
  }

  /** An object is recognised exactly when its tag is present and is the boolean `true`. */
  lemma RecognisesByTag(o: JsObject)
    ensures ValidatorKey !in o.symbols ==> !IsUpdateInstructionToolResult(Obj(o))
    ensures ValidatorKey in o.symbols && o.symbols[ValidatorKey] != Bool(true) ==> !IsUpdateInstructionToolResult(Obj(o))
    ensures IsUpdateInstructionToolResult(Obj(o)) <==> ValidatorKey in o.symbols && o.symbols[ValidatorKey] == Bool(true)
  {
  }
}
