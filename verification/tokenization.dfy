/** `text tokenization` (src/commands/text/tokenization.js): every input is
    tokenized, all requests are settled, one JSON line is written per input
    in input order, and the aggregate SDK error is raised afterwards iff some
    request was rejected. */
module Tokenization {

  import opened Wrappers
  import opened JsValues
  import opened Io

  const TOKENIZATION_ERRORS: string := "Errors have been encountered during tokenization, see output"

  datatype Request = Request(modelId: string, returnTokens: bool, input: string)

  /** `--returnTokens` is a boolean flag defaulting to true. */
  function ReturnTokens(flag: Option<bool>): bool {
    flag.GetOr(true)
  }

  function Requests(inputs: seq<string>, model: Option<string>, returnTokens: Option<bool>): (r: seq<Request>)
    ensures |r| == |inputs|
    ensures forall i :: 0 <= i < |r| ==> r[i] == Request(model.GetOr("default"), ReturnTokens(returnTokens), inputs[i])
  {
    if |inputs| == 0 then []
    else [Request(model.GetOr("default"), ReturnTokens(returnTokens), inputs[0])] + Requests(inputs[1..], model, returnTokens)
  }

  /** The settled result of one input's async mapper: the client's response
      reduced to `{ token_count, tokens }` (destructuring a nullish response
      throws, which rejects), or the client's rejection. */
  function Settle(outcome: Result<JsValue, JsValue>): (r: Result<JsValue, JsValue>)
    ensures outcome.Err? ==> r == outcome
    ensures outcome.Ok? && !IsNullish(outcome.value) ==>
      r == Ok(PlainObject(map["token_count" := Prop(outcome.value, "token_count"),
                              "tokens" := Prop(outcome.value, "tokens")]))
    ensures outcome.Ok? && IsNullish(outcome.value) ==> r.Err?
  {
    match outcome
    case Err(reason) => Err(reason)
    case Ok(response) =>
      if IsNullish(response) then Err(NullishReadError)
      else Ok(PlainObject(map["token_count" := Prop(response, "token_count"), "tokens" := Prop(response, "tokens")]))
  }

  /** The line for a settled result: its value, or `{ error: reason?.message }`. */
  function Record(settled: Result<JsValue, JsValue>): JsValue {
    match settled
    case Ok(v) => v
    case Err(reason) => ErrorRecord(Prop(reason, "message"))
  }

  datatype Output = Output(writes: seq<Write>, raisesSdkError: bool)

  /** The output loop over the settled results, with the error flag so far. */
  function EmitFrom(settled: seq<Result<JsValue, JsValue>>, hasError: bool): (r: Output)
    ensures r.writes == Lines(RecordsOf(settled))
    ensures r.raisesSdkError <==> hasError || exists i :: 0 <= i < |settled| && settled[i].Err?
    decreases |settled|
  {
    if |settled| == 0 then Output([], hasError)
    else
      var rest := EmitFrom(settled[1..], hasError || settled[0].Err?);
      Output([Json(Record(settled[0])), Text("\n")] + rest.writes, rest.raisesSdkError)
  }

  function RecordsOf(settled: seq<Result<JsValue, JsValue>>): (r: seq<JsValue>)
    ensures |r| == |settled|
    ensures forall i :: 0 <= i < |r| ==> r[i] == Record(settled[i])
  {
    if |settled| == 0 then [] else [Record(settled[0])] + RecordsOf(settled[1..])
  }

  function SettleAll(outcomes: seq<Result<JsValue, JsValue>>): (r: seq<Result<JsValue, JsValue>>)
    ensures |r| == |outcomes|
    ensures forall i :: 0 <= i < |r| ==> r[i] == Settle(outcomes[i])
  {
    if |outcomes| == 0 then [] else [Settle(outcomes[0])] + SettleAll(outcomes[1..])
  }

  /** The handler's output for the client's outcomes, in input order: exactly
      one line per input, the record or the error, and the aggregate error
      after the last line iff some input was rejected. */
  function Tokenize(outcomes: seq<Result<JsValue, JsValue>>): (r: Output)
    ensures |r.writes| == 2 * |outcomes|
    ensures forall i :: 0 <= i < |outcomes| ==>
      r.writes[2 * i] == Json(Record(Settle(outcomes[i]))) && r.writes[2 * i + 1] == Text("\n")
    ensures r.raisesSdkError <==> exists i :: 0 <= i < |outcomes| && Settle(outcomes[i]).Err?
  {
    EmitFrom(SettleAll(outcomes), false)
  }

  /** A rejected request does not keep the others from being written: the
      line of every fulfilled input holds its counts. */
  lemma RejectionDoesNotStopOthers(outcomes: seq<Result<JsValue, JsValue>>, i: nat)
    requires i < |outcomes| && outcomes[i].Ok? && !IsNullish(outcomes[i].value)
    ensures Tokenize(outcomes).writes[2 * i] ==
      Json(PlainObject(map["token_count" := Prop(outcomes[i].value, "token_count"),
                           "tokens" := Prop(outcomes[i].value, "tokens")]))
  {
  }
}
