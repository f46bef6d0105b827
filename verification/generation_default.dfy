/** The default `generate` command (src/commands/text/generation/default.js):
    every input becomes a request; without streaming each outcome is written
    as one JSON line and a failure does not stop later inputs; with streaming
    the chunks of the single stream are written as they come. Errors are
    recorded and, after all output, turned into one SDK error. */
module GenerationDefault {

  import opened Wrappers
  import opened JsValues
  import opened Io

  const GENERATION_ERRORS: string := "Errors have been encountered during generation, see output"

  datatype Request = Request(modelId: string, parameters: Option<map<string, JsValue>>, input: string)

  /** How the handler ends: normally, with the aggregate SDK error, or with
      an exception thrown from inside a `catch` (reading `message` of a
      nullish rejection reason). */
  datatype Raise = NoRaise | SdkError(message: string) | Thrown(err: JsValue)

  datatype Output = Output(writes: seq<Write>, raised: Raise)

  /** `mappedInputs`: one request per input, model or "default", shared
      parameters. */
  function MappedInputs(inputs: seq<string>, model: Option<string>, parameters: Option<map<string, JsValue>>)
    : (r: seq<Request>)
    ensures |r| == |inputs|
    ensures forall i :: 0 <= i < |r| ==>
      r[i].input == inputs[i] && r[i].modelId == model.GetOr("default") && r[i].parameters == parameters
  {
    if |inputs| == 0 then []
    else [Request(model.GetOr("default"), parameters, inputs[0])] + MappedInputs(inputs[1..], model, parameters)
  }

  /** `args.parameters?.stream` is truthy. */
  predicate StreamMode(parameters: Option<map<string, JsValue>>) {
    parameters.Some? && "stream" in parameters.value && Truthy(parameters.value["stream"])
  }

  /** A rejection whose handling throws: `err.message` of a nullish reason. */
  predicate CrashesHandler(outcome: Result<JsValue, JsValue>) {
    outcome.Err? && IsNullish(outcome.error)
  }

  /** What the `try` of one input does: read `generated_text` of the output
      (a nullish output makes the read throw) and write its JSON, which
      throws when the text is missing, since `JSON.stringify(undefined)` is
      `undefined`. A rejection is passed on as the error caught. */
  function Attempt(outcome: Result<JsValue, JsValue>): (r: Result<JsValue, JsValue>)
    ensures outcome.Err? ==> r == outcome
    ensures outcome.Ok? ==>
      (r.Ok? <==> !IsNullish(outcome.value) && Prop(outcome.value, "generated_text") != Undefined)
    ensures r.Ok? ==> r.value == Prop(outcome.value, "generated_text") && JsonWrite(r.value) == Ok(Json(r.value))
    ensures outcome.Ok? && r.Err? ==> !IsNullish(r.error) && Prop(r.error, "message").Str?
  {
    match outcome
    case Ok(output) =>
      (match ReadProp(output, "generated_text")
       case Err(readError) => Err(readError)
       case Ok(text) =>
         match JsonWrite(text)
         case Ok(_) => Ok(text)
         case Err(writeError) => Err(writeError))
    case Err(err) => Err(err)
  }

  /** The record written for an input whose handling does not throw. */
  function Record(outcome: Result<JsValue, JsValue>): JsValue
    requires !CrashesHandler(outcome)
  {
    match Attempt(outcome)
    case Ok(text) => text
    case Err(err) => ErrorRecord(Prop(err, "message"))
  }

  /** The non-streaming loop from some input on, given whether an error was
      already recorded. */
  function NonStreamFrom(outcomes: seq<Result<JsValue, JsValue>>, hasError: bool): (r: Output)
    ensures r.raised == NoRaise ==> !hasError
    ensures r.raised.SdkError? ==> r.raised.message == GENERATION_ERRORS
    decreases |outcomes|
  {
    if |outcomes| == 0 then Output([], if hasError then SdkError(GENERATION_ERRORS) else NoRaise)
    else match Attempt(outcomes[0])
      case Ok(text) =>
        var rest := NonStreamFrom(outcomes[1..], hasError);
        Output([Json(text), Text("\n")] + rest.writes, rest.raised)
      case Err(err) =>
        match ReadProp(err, "message")
        case Err(typeError) => Output([Text("\n")], Thrown(typeError))
        case Ok(message) =>
          var rest := NonStreamFrom(outcomes[1..], true);
          Output([Json(ErrorRecord(message)), Text("\n")] + rest.writes, rest.raised)
  }

  /** One step of the loop over an input whose handling does not throw: its
      record line, then the rest, with the error recorded if it failed. */
  lemma NonStreamFromStep(outcomes: seq<Result<JsValue, JsValue>>, hasError: bool)
    requires |outcomes| > 0 && !CrashesHandler(outcomes[0])
    ensures var rest := NonStreamFrom(outcomes[1..], hasError || Attempt(outcomes[0]).Err?);
      NonStreamFrom(outcomes, hasError) == Output([Json(Record(outcomes[0])), Text("\n")] + rest.writes, rest.raised)
  {
  }

  /** The records of a non-empty outcome list, first record first. */
  lemma RecordsCons(outcomes: seq<Result<JsValue, JsValue>>)
    requires |outcomes| > 0
    requires forall i :: 0 <= i < |outcomes| ==> !CrashesHandler(outcomes[i])
    ensures Records(outcomes) == [Record(outcomes[0])] + Records(outcomes[1..])
  {
  }

  /** When no rejection crashes the handler, the loop writes the line of
      every record. */
  lemma {:induction false} NonStreamFromWrites(outcomes: seq<Result<JsValue, JsValue>>, hasError: bool)
    requires forall i :: 0 <= i < |outcomes| ==> !CrashesHandler(outcomes[i])
    ensures NonStreamFrom(outcomes, hasError).writes == Lines(Records(outcomes))
    decreases |outcomes|
  {
    if |outcomes| > 0 {
      var tail := outcomes[1..];
      var next := hasError || Attempt(outcomes[0]).Err?;
      assert forall i :: 0 <= i < |tail| ==> !CrashesHandler(tail[i]) by {
        assert forall i :: 0 <= i < |tail| ==> tail[i] == outcomes[i + 1];
      }
      NonStreamFromWrites(tail, next);
      NonStreamFromStep(outcomes, hasError);
      RecordsCons(outcomes);
      LinesCons(Record(outcomes[0]), Records(tail));
    }
  }

  /** When no rejection crashes the handler, the loop ends normally iff no
      error was recorded before and every attempt succeeds, and otherwise
      with the aggregate error. */
  lemma {:induction false} NonStreamFromRaised(outcomes: seq<Result<JsValue, JsValue>>, hasError: bool)
    requires forall i :: 0 <= i < |outcomes| ==> !CrashesHandler(outcomes[i])
    ensures var r := NonStreamFrom(outcomes, hasError);
      && (r.raised == NoRaise <==> !hasError && forall i :: 0 <= i < |outcomes| ==> Attempt(outcomes[i]).Ok?)
      && (r.raised != NoRaise ==> r.raised == SdkError(GENERATION_ERRORS))
    decreases |outcomes|
  {
    if |outcomes| > 0 {
      var tail := outcomes[1..];
      assert forall i :: 0 <= i < |tail| ==> tail[i] == outcomes[i + 1];
      NonStreamFromRaised(tail, hasError || Attempt(outcomes[0]).Err?);
    }
  }

  function Records(outcomes: seq<Result<JsValue, JsValue>>): (r: seq<JsValue>)
    requires forall i :: 0 <= i < |outcomes| ==> !CrashesHandler(outcomes[i])
    ensures |r| == |outcomes|
    ensures forall i :: 0 <= i < |r| ==> r[i] == Record(outcomes[i])
  {
    if |outcomes| == 0 then [] else [Record(outcomes[0])] + Records(outcomes[1..])
  }

  /** Non-streaming mode: one JSON line per input, in input order, whether it
      succeeded or failed; the aggregate error is raised after the last line
      iff some input failed. */
  lemma NonStreamLines(outcomes: seq<Result<JsValue, JsValue>>)
    requires forall i :: 0 <= i < |outcomes| ==> !CrashesHandler(outcomes[i])
    ensures var r := NonStreamFrom(outcomes, false);
      && |r.writes| == 2 * |outcomes|
      && (forall i :: 0 <= i < |outcomes| ==>
            r.writes[2 * i] == Json(Record(outcomes[i])) && r.writes[2 * i + 1] == Text("\n"))
      && (r.raised == SdkError(GENERATION_ERRORS) <==> exists i :: 0 <= i < |outcomes| && Attempt(outcomes[i]).Err?)
      && (r.raised == NoRaise <==> forall i :: 0 <= i < |outcomes| ==> Attempt(outcomes[i]).Ok?)
  {
    NonStreamFromWrites(outcomes, false);
    NonStreamFromRaised(outcomes, false);
  }

  /** Without a crashing rejection, the loop writes two items per input and
      ends normally iff every attempt succeeds. */
  lemma NonStreamWriteCount(outcomes: seq<Result<JsValue, JsValue>>)
    ensures (forall i :: 0 <= i < |outcomes| ==> !CrashesHandler(outcomes[i])) ==>
      && |NonStreamFrom(outcomes, false).writes| == 2 * |outcomes|
      && (NonStreamFrom(outcomes, false).raised == NoRaise <==> forall i :: 0 <= i < |outcomes| ==> Attempt(outcomes[i]).Ok?)
  {
    if forall i :: 0 <= i < |outcomes| ==> !CrashesHandler(outcomes[i]) {
      NonStreamFromWrites(outcomes, false);
      NonStreamFromRaised(outcomes, false);
    }
  }

  /** An output that resolves without `generated_text` is a failure: its
      line is the write error's record and the aggregate error is raised. */
  lemma MissingTextIsFailure(output: JsValue)
    requires !IsNullish(output) && Prop(output, "generated_text") == Undefined
    ensures NonStreamFrom([Ok(output)], false) ==
      Output([Json(ErrorRecord(Str(INVALID_CHUNK_MESSAGE))), Text("\n")], SdkError(GENERATION_ERRORS))
  {
    assert Attempt(Ok(output)) == Err(WriteError(Undefined));
  }

  /** One chunk of the stream: `outputStream.write(chunk.generated_text)`,
      which throws for a nullish chunk and for a text that is neither a
      string nor a Buffer. */
  function ChunkWrite(chunk: JsValue): (r: Result<Write, JsValue>)
    ensures r.Ok? <==> !IsNullish(chunk) && (Prop(chunk, "generated_text").Str? || Prop(chunk, "generated_text").Buf?)
    ensures !IsNullish(chunk) ==> r == StreamWrite(Prop(chunk, "generated_text"))
    ensures r.Err? ==> !IsNullish(r.error)
  {
    match ReadProp(chunk, "generated_text")
    case Err(readError) => Err(readError)
    case Ok(text) => StreamWrite(text)
  }

  /** How many leading chunks are written before the first that cannot be. */
  function Written(chunks: seq<JsValue>): (n: nat)
    ensures n <= |chunks|
    ensures forall i :: 0 <= i < n ==> ChunkWrite(chunks[i]).Ok?
    ensures n < |chunks| ==> ChunkWrite(chunks[n]).Err?
  {
    if |chunks| == 0 || ChunkWrite(chunks[0]).Err? then 0 else 1 + Written(chunks[1..])
  }

  /** The `catch` and `finally` of the streaming branch: the error record
      and the newline; for a nullish reason `err.message` throws and only
      the newline of `finally` is written. */
  function Caught(err: JsValue): (r: Output)
    ensures !IsNullish(err) ==>
      r == Output([Json(ErrorRecord(Prop(err, "message"))), Text("\n")], SdkError(GENERATION_ERRORS))
    ensures IsNullish(err) ==> r.writes == [Text("\n")] && r.raised == Thrown(NullishReadError)
  {
    match ReadProp(err, "message")
    case Err(typeError) => Output([Text("\n")], Thrown(typeError))
    case Ok(message) => Output([Json(ErrorRecord(message)), Text("\n")], SdkError(GENERATION_ERRORS))
  }

  /** How the streaming branch ends once every chunk was written: the
      stream's own failure, if any, is caught; the newline always follows. */
  function Ended(failure: Option<JsValue>): (r: Output)
    ensures failure.None? ==> r == Output([Text("\n")], NoRaise)
    ensures failure.Some? ==> r == Caught(failure.value)
  {
    match failure
    case None => Output([Text("\n")], NoRaise)
    case Some(err) => Caught(err)
  }

  /** Streaming mode: the chunks are written as they come; the first chunk
      that cannot be written, or the stream's failure, ends the loop in the
      `catch`; the final newline is always written (`finally`). */
  function Streamed(chunks: seq<JsValue>, failure: Option<JsValue>): (r: Output)
    ensures |r.writes| > 0 && r.writes[|r.writes| - 1] == Text("\n")
    ensures r.raised.SdkError? ==> r.raised.message == GENERATION_ERRORS
    decreases |chunks|
  {
    if |chunks| == 0 then Ended(failure)
    else match ChunkWrite(chunks[0])
      case Ok(w) =>
        var rest := Streamed(chunks[1..], failure);
        Output([w] + rest.writes, rest.raised)
      case Err(err) => Caught(err)
  }

  /** The streamed output starts with the writes of the leading writable
      chunks, in arrival order. */
  lemma {:induction false} StreamedPrefix(chunks: seq<JsValue>, failure: Option<JsValue>)
    ensures var n := Written(chunks); var r := Streamed(chunks, failure);
      && |r.writes| > n
      && forall i :: 0 <= i < n ==> r.writes[i] == ChunkWrite(chunks[i]).value
    decreases |chunks|
  {
    if |chunks| > 0 && ChunkWrite(chunks[0]).Ok? {
      var tail := chunks[1..];
      StreamedPrefix(tail, failure);
      StreamedStep(chunks, failure);
      assert Written(chunks) == Written(tail) + 1;
      assert forall i :: 1 <= i < |chunks| ==> chunks[i] == tail[i - 1];
    }
  }

  /** After those writes comes the ending: the caught error of the first
      chunk that cannot be written, or else the stream's own ending. */
  lemma {:induction false} StreamedTail(chunks: seq<JsValue>, failure: Option<JsValue>)
    ensures var n := Written(chunks); var r := Streamed(chunks, failure);
      |r.writes| >= n &&
      Output(r.writes[n..], r.raised) == (if n < |chunks| then Caught(ChunkWrite(chunks[n]).error) else Ended(failure))
    decreases |chunks|
  {
    if |chunks| == 0 || ChunkWrite(chunks[0]).Err? {
      assert Streamed(chunks, failure).writes[0..] == Streamed(chunks, failure).writes;
    } else {
      var tail := chunks[1..];
      StreamedTail(tail, failure);
      StreamedStep(chunks, failure);
      var m := Written(tail);
      assert Written(chunks) == m + 1;
      var rest := Streamed(tail, failure);
      assert ([ChunkWrite(chunks[0]).value] + rest.writes)[m + 1..] == rest.writes[m..];
      assert m < |tail| ==> chunks[m + 1] == tail[m];
    }
  }

  /** The streamed output is the writes of the leading writable chunks, in
      order, followed by the ending. */
  lemma StreamedOutput(chunks: seq<JsValue>, failure: Option<JsValue>)
    ensures var n := Written(chunks); var r := Streamed(chunks, failure);
      && |r.writes| > n
      && (forall i :: 0 <= i < n ==> r.writes[i] == ChunkWrite(chunks[i]).value)
      && Output(r.writes[n..], r.raised) == (if n < |chunks| then Caught(ChunkWrite(chunks[n]).error) else Ended(failure))
  {
    StreamedPrefix(chunks, failure);
    StreamedTail(chunks, failure);
  }

  /** One written chunk, then the rest of the stream. */
  lemma StreamedStep(chunks: seq<JsValue>, failure: Option<JsValue>)
    requires |chunks| > 0 && ChunkWrite(chunks[0]).Ok?
    ensures var rest := Streamed(chunks[1..], failure);
      Streamed(chunks, failure) == Output([ChunkWrite(chunks[0]).value] + rest.writes, rest.raised)
  {
  }

  /** Streaming ends normally iff every chunk is written and the stream does
      not fail; a chunk that cannot be written, or a non-nullish failure,
      raises the aggregate error. */
  lemma StreamedRaised(chunks: seq<JsValue>, failure: Option<JsValue>)
    ensures var n := Written(chunks); var r := Streamed(chunks, failure);
      && (r.raised == NoRaise <==> n == |chunks| && failure.None?)
      && (r.raised == SdkError(GENERATION_ERRORS) <==>
            n < |chunks| || (failure.Some? && !IsNullish(failure.value)))
  {
    StreamedOutput(chunks, failure);
  }

  /** A chunk without `generated_text` is written as the write error's
      record and stops the stream. */
  lemma MissingChunkTextIsFailure(text: string)
    ensures var chunks := [PlainObject(map["generated_text" := Str(text)]), PlainObject(map[])];
      Streamed(chunks, None) ==
        Output([Text(text), Json(ErrorRecord(Str(INVALID_CHUNK_MESSAGE))), Text("\n")], SdkError(GENERATION_ERRORS))
  {
    var chunks := [PlainObject(map["generated_text" := Str(text)]), PlainObject(map[])];
    assert chunks[1..] == [PlainObject(map[])];
  }

  /** The handler: requests for the inputs, then the mode's output. The
      non-streaming outcomes are those of the per-input promises; the
      streaming ones are the chunks and the failure of the single stream. */
  function Default(inputs: seq<string>, model: Option<string>, parameters: Option<map<string, JsValue>>,
                   outcomes: seq<Result<JsValue, JsValue>>, chunks: seq<JsValue>, failure: Option<JsValue>)
    : (r: (seq<Request>, Output))
    requires !StreamMode(parameters) ==> |outcomes| == |inputs|
    ensures |r.0| == |inputs|
    ensures forall i :: 0 <= i < |inputs| ==> r.0[i].input == inputs[i]
    ensures StreamMode(parameters) ==> r.1 == Streamed(chunks, failure)
    ensures !StreamMode(parameters) ==> r.1 == NonStreamFrom(outcomes, false)
    ensures !StreamMode(parameters) && (forall i :: 0 <= i < |outcomes| ==> !CrashesHandler(outcomes[i])) ==>
      && |r.1.writes| == 2 * |inputs|
      && (r.1.raised == NoRaise <==> forall i :: 0 <= i < |outcomes| ==> Attempt(outcomes[i]).Ok?)
    ensures StreamMode(parameters) ==> (r.1.raised == NoRaise <==> Written(chunks) == |chunks| && failure.None?)
  {
    NonStreamWriteCount(outcomes);
    StreamedRaised(chunks, failure);
    (MappedInputs(inputs, model, parameters),
     if StreamMode(parameters) then Streamed(chunks, failure) else NonStreamFrom(outcomes, false))
  }
}
