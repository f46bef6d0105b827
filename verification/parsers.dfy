/** The generation-input validator of src/utils/parsers.js: an input is either
    a string or an object `{ input: string }`. */
module Parsers {

  import opened Wrappers
  import opened JsValues

  const INVALID_INPUT_MESSAGE: string :=
    "Invalid input, must be one of \"text\" or { \"input\": \"text\" }"

  /** The shape check, stated independently of `ParseInput`. */
  predicate IsGenerationInput(v: JsValue) {
    v.Str? || (v.Obj? && "input" in v.own && v.own["input"].Str?)
  }

  /** `parseInput`: the string itself, or the own `input` property of an object
      when that is a string; anything else throws. `null` and `undefined` fall
      back to `{}` and are rejected like any other non-matching value. */
  function ParseInput(v: JsValue): (r: Result<string, string>)
    ensures r.Ok? <==> IsGenerationInput(v)
    ensures v.Str? ==> r == Ok(v.s)
    ensures !v.Str? && r.Ok? ==> HasOwn(v, "input") && Prop(v, "input") == Str(r.value)
    ensures r.Err? ==> r.error == INVALID_INPUT_MESSAGE
  {
    if v.Str? then Ok(v.s)
    else
      var target := if IsNullish(v) then PlainObject(map[]) else v;
      if HasOwn(target, "input") && Prop(target, "input").Str? then Ok(Prop(target, "input").s)
      else Err(INVALID_INPUT_MESSAGE)
  }

  /** A parsed input is a string, so parsing it again gives it back. */
  lemma ParseInputIdempotent(v: JsValue)
    requires ParseInput(v).Ok?
    ensures ParseInput(Str(ParseInput(v).value)) == ParseInput(v)
  {
  }

  /** An `input` property that is only inherited does not count. */
  lemma InheritedInputRejected(inherited: map<string, JsValue>, own: map<string, JsValue>, classes: set<JsClass>)
    requires "input" !in own
    ensures ParseInput(Obj(own, inherited, classes)) == Err(INVALID_INPUT_MESSAGE)
  {
  }
}
