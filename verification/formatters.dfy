/** Output-format selection of src/utils/formatters.js. */
module Formatters {

  import opened Wrappers
  import opened JsValues

  const FORMATS: seq<string> := ["json", "yaml"]

  /** A serialised document; the serialisers themselves are not modelled. */
  datatype Rendered = JsonText(data: JsValue) | YamlText(data: JsValue)

  /** `isValidFormat`: membership in the list of formats. */
  predicate IsValidFormat(format: JsValue) {
    format.Str? && format.s in FORMATS
  }

  lemma ValidFormats(format: JsValue)
    ensures IsValidFormat(format) <==> format == Str("json") || format == Str("yaml")
  {
  }

  /** `format` as written: the "Invalid format" error is constructed but not
      thrown, so an unknown format falls out of the switch as `undefined`
      (`None`). */
  function Format(data: JsValue, format: JsValue): (r: Option<Rendered>)
    ensures format == Str("json") ==> r == Some(JsonText(data))
    ensures format == Str("yaml") ==> r == Some(YamlText(data))
    ensures r.None? <==> !IsValidFormat(format)
  {
    match format
    case Str(f) =>
      if f == "json" then Some(JsonText(data))
      else if f == "yaml" then Some(YamlText(data))
      else None
    case _ => None
  }

  /** An unknown format does not raise: `format(d, "xml")` is `undefined`. */
  lemma InvalidFormatIsUndefined(data: JsValue)
    ensures Format(data, Str("xml")) == None
  {
  }

  const INVALID_FORMAT_MESSAGE: string := "Invalid format"

  /** `format` with the evidently intended `throw`: an unknown format is an
      error, a valid one renders as before. */
  function FormatChecked(data: JsValue, format: JsValue): (r: Result<Rendered, string>)
    ensures r.Err? <==> !IsValidFormat(format)
    ensures r.Err? ==> r.error == INVALID_FORMAT_MESSAGE
    ensures r.Ok? ==> Format(data, format) == Some(r.value)
  {
    if !IsValidFormat(format) then Err(INVALID_FORMAT_MESSAGE)
    else if format.s == "json" then Ok(JsonText(data))
    else Ok(YamlText(data))
  }
}
