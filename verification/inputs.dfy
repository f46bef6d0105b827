/** Where the batch commands take their inputs from: inline arguments, else
    the `--file` inputs, else standard input. Both file and standard input
    hold line-delimited JSON values, each validated by `parseInput` with
    `Array.prototype.map`, so the first invalid value throws and nothing is
    processed. */
module Inputs {

  import opened Wrappers
  import opened JsValues
  import opened Seqs
  import Parsers

  /** `values.map(parseInput)`: all inputs, or the error of the first
      invalid one. */
  function ParseAll(values: seq<JsValue>): (r: Result<seq<string>, string>)
    ensures r.Ok? <==> forall i :: 0 <= i < |values| ==> Parsers.IsGenerationInput(values[i])
    ensures r.Ok? ==> |r.value| == |values|
    ensures r.Ok? ==> forall i :: 0 <= i < |values| ==> Parsers.ParseInput(values[i]) == Ok(r.value[i])
    ensures r.Err? ==> r.error == Parsers.INVALID_INPUT_MESSAGE
  {
    if |values| == 0 then Ok([])
    else match Parsers.ParseInput(values[0])
      case Err(e) => Err(e)
      case Ok(s) =>
        match ParseAll(values[1..])
        case Err(e) => Err(e)
        case Ok(rest) => Ok([s] + rest)
  }

  /** The `--file` coercion: every file's values, concatenated in file order,
      then validated. */
  function CoerceFiles(files: seq<seq<JsValue>>): (r: Result<seq<string>, string>)
    ensures r == ParseAll(Flatten(files))
    ensures r.Ok? <==> forall i :: 0 <= i < |Flatten(files)| ==> Parsers.IsGenerationInput(Flatten(files)[i])
  {
    var values := Flatten(files);
    ParseAll(values)
  }

  /** `inlineInputs ?? fileInputs ?? (await readJSONStream(stdin)).map(parseInput)`. */
  function SelectInputs(inline: Option<seq<string>>, file: Option<seq<string>>, stdin: seq<JsValue>)
    : (r: Result<seq<string>, string>)
    ensures inline.Some? ==> r == Ok(inline.value)
    ensures inline.None? && file.Some? ==> r == Ok(file.value)
    ensures inline.None? && file.None? ==> r == ParseAll(stdin)
  {
    match inline
    case Some(xs) => Ok(xs)
    case None =>
      match file
      case Some(xs) => Ok(xs)
      case None => ParseAll(stdin)
  }

  /** Standard input is read only when neither other source is given, and
      then yields exactly its validated values in order. */
  lemma StdinUsedLast(stdin: seq<JsValue>)
    requires forall i :: 0 <= i < |stdin| ==> Parsers.IsGenerationInput(stdin[i])
    ensures SelectInputs(None, None, stdin).Ok?
    ensures |SelectInputs(None, None, stdin).value| == |stdin|
  {
  }
}
