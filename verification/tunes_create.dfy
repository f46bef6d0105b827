/** `tunes create` (src/commands/tunes/create.js): required-argument and
    `task` choice checks, the tuning-parameters middleware with its yargs
    defaults, the mapping of arguments onto the tune request, and the
    printed `{id, name}`. */
module TunesCreate {

  import opened Wrappers
  import opened JsValues
  import opened Common
  import opened Parameters

  const TASKS: seq<string> := ["generation", "classification", "summarization"]

  const DEFAULT_ACCUMULATE_STEPS: real := 16.0
  const DEFAULT_BATCH_SIZE: real := 16.0
  const DEFAULT_LEARNING_RATE: real := 0.3
  const DEFAULT_MAX_INPUT_TOKENS: real := 256.0
  const DEFAULT_MAX_OUTPUT_TOKENS: real := 128.0
  const DEFAULT_NUM_EPOCHS: real := 20.0
  const DEFAULT_NUM_VIRTUAL_TOKENS: real := 100.0

  /** The arguments as typed; `None` is a flag that was not given. The
      `init*` values are read by the middleware although no option declares
      them, so under strict parsing only another middleware can set them. */
  datatype TuneArgs = TuneArgs(
    name: Option<string>,
    model: Option<string>,
    task: Option<string>,
    tuningMethod: Option<string>,
    training: Option<seq<JsValue>>,
    validation: Option<seq<JsValue>>,
    evaluation: Option<seq<JsValue>>,
    accumulateSteps: Option<real>,
    batchSize: Option<real>,
    initMethod: Option<Defined>,
    initText: Option<Defined>,
    learningRate: Option<real>,
    maxInputTokens: Option<real>,
    maxOutputTokens: Option<real>,
    numEpochs: Option<real>,
    numVirtualTokens: Option<real>,
    verbalizer: Option<string>)

  /** What yargs rejects before the handler runs. */
  datatype UsageError =
    | MissingArguments(names: seq<string>)
    | InvalidTask(given: string)

  /** The `demandOption` names that were not given, in declaration order. */
  function Missing(args: TuneArgs): (r: seq<string>)
    ensures "name" in r <==> args.name.None?
    ensures "model" in r <==> args.model.None?
    ensures "task" in r <==> args.task.None?
    ensures "method" in r <==> args.tuningMethod.None?
    ensures "training" in r <==> args.training.None?
    ensures |r| == 0 <==>
      args.name.Some? && args.model.Some? && args.task.Some? && args.tuningMethod.Some? && args.training.Some?
  {
    (if args.name.None? then ["name"] else [])
    + (if args.model.None? then ["model"] else [])
    + (if args.task.None? then ["task"] else [])
    + (if args.tuningMethod.None? then ["method"] else [])
    + (if args.training.None? then ["training"] else [])
  }

  /** The request `client.tune` receives. */
  datatype TuneRequest = TuneRequest(
    name: string,
    modelId: string,
    taskId: string,
    methodId: string,
    parameters: Option<map<string, JsValue>>,
    trainingFileIds: seq<JsValue>,
    validationFileIds: Option<seq<JsValue>>,
    evaluationFileIds: Option<seq<JsValue>>)

  /** A numeric flag after yargs applied its default. */
  function WithDefault(v: Option<real>, fallback: real): (r: Defined)
    ensures r == Num(if v.Some? then v.value else fallback)
  {
    Num(v.GetOr(fallback))
  }

  function OptionalArg(v: Option<Defined>): JsValue {
    match v
    case None => Undefined
    case Some(x) => x
  }

  const TUNE_PARAMETER_KEYS: set<string> := {
    "accumulate_steps", "batch_size", "init_method", "init_text",
    "learning_rate", "max_input_tokens", "max_output_tokens", "num_epochs",
    "num_virtual_tokens", "verbalizer"}

  /** The object handed to `pickDefined`. */
  function TuneEntries(args: TuneArgs): map<string, JsValue> {
    map[
      "accumulate_steps" := WithDefault(args.accumulateSteps, DEFAULT_ACCUMULATE_STEPS),
      "batch_size" := WithDefault(args.batchSize, DEFAULT_BATCH_SIZE),
      "init_method" := OptionalArg(args.initMethod),
      "init_text" := OptionalArg(args.initText),
      "learning_rate" := WithDefault(args.learningRate, DEFAULT_LEARNING_RATE),
      "max_input_tokens" := WithDefault(args.maxInputTokens, DEFAULT_MAX_INPUT_TOKENS),
      "max_output_tokens" := WithDefault(args.maxOutputTokens, DEFAULT_MAX_OUTPUT_TOKENS),
      "num_epochs" := WithDefault(args.numEpochs, DEFAULT_NUM_EPOCHS),
      "num_virtual_tokens" := WithDefault(args.numVirtualTokens, DEFAULT_NUM_VIRTUAL_TOKENS),
      "verbalizer" := if args.verbalizer.Some? then Str(args.verbalizer.value) else Undefined]
  }

  /** The middleware. The seven numeric settings always have a value (their
      own or the default), so `parameters` is never `undefined`; `init_*`
      and `verbalizer` appear only when set. */
  function TuneParameters(args: TuneArgs): (r: Option<map<string, JsValue>>)
    ensures r.Some?
    ensures r.value.Keys <= TUNE_PARAMETER_KEYS
    ensures "accumulate_steps" in r.value && r.value["accumulate_steps"] == Num(args.accumulateSteps.GetOr(16.0))
    ensures "batch_size" in r.value && r.value["batch_size"] == Num(args.batchSize.GetOr(16.0))
    ensures "learning_rate" in r.value && r.value["learning_rate"] == Num(args.learningRate.GetOr(0.3))
    ensures "max_input_tokens" in r.value && r.value["max_input_tokens"] == Num(args.maxInputTokens.GetOr(256.0))
    ensures "max_output_tokens" in r.value && r.value["max_output_tokens"] == Num(args.maxOutputTokens.GetOr(128.0))
    ensures "num_epochs" in r.value && r.value["num_epochs"] == Num(args.numEpochs.GetOr(20.0))
    ensures "num_virtual_tokens" in r.value && r.value["num_virtual_tokens"] == Num(args.numVirtualTokens.GetOr(100.0))
    ensures Carries(r.value, "init_method", args.initMethod)
    ensures Carries(r.value, "init_text", args.initText)
    ensures "verbalizer" in r.value <==> args.verbalizer.Some?
    ensures args.verbalizer.Some? ==> r.value["verbalizer"] == Str(args.verbalizer.value)
  {
    var parameters := PickDefined(TuneEntries(args));
    TuneEntriesValues(args);
    if |parameters| > 0 then
      Some(parameters)
    else
      assert false;
      None
  }

  /** The entries, key by key. */
  lemma TuneEntriesValues(args: TuneArgs)
    ensures TuneEntries(args).Keys == TUNE_PARAMETER_KEYS
    ensures TuneEntries(args)["accumulate_steps"] == Num(args.accumulateSteps.GetOr(16.0))
    ensures TuneEntries(args)["batch_size"] == Num(args.batchSize.GetOr(16.0))
    ensures TuneEntries(args)["learning_rate"] == Num(args.learningRate.GetOr(0.3))
    ensures TuneEntries(args)["max_input_tokens"] == Num(args.maxInputTokens.GetOr(256.0))
    ensures TuneEntries(args)["max_output_tokens"] == Num(args.maxOutputTokens.GetOr(128.0))
    ensures TuneEntries(args)["num_epochs"] == Num(args.numEpochs.GetOr(20.0))
    ensures TuneEntries(args)["num_virtual_tokens"] == Num(args.numVirtualTokens.GetOr(100.0))
    ensures TuneEntries(args)["init_method"] == OptionalArg(args.initMethod)
    ensures TuneEntries(args)["init_text"] == OptionalArg(args.initText)
    ensures TuneEntries(args)["verbalizer"] == if args.verbalizer.Some? then Str(args.verbalizer.value) else Undefined
  {
  }

  /** Argument checks, then the request. */
  function CreateTune(args: TuneArgs): (r: Result<TuneRequest, UsageError>)
    ensures r.Err? <==> |Missing(args)| > 0 || (args.task.Some? && args.task.value !in TASKS)
    ensures |Missing(args)| > 0 ==> r == Err(MissingArguments(Missing(args)))
    ensures r.Ok? ==>
      && r.value.name == args.name.value
      && r.value.modelId == args.model.value
      && r.value.taskId == args.task.value
      && r.value.taskId in TASKS
      && r.value.methodId == args.tuningMethod.value
      && r.value.parameters == TuneParameters(args)
      && r.value.trainingFileIds == args.training.value
      && r.value.validationFileIds == args.validation
      && r.value.evaluationFileIds == args.evaluation
  {
    var missing := Missing(args);
    if |missing| > 0 then
      Err(MissingArguments(missing))
    else if args.task.value !in TASKS then
      Err(InvalidTask(args.task.value))
    else
      Ok(TuneRequest(args.name.value, args.model.value, args.task.value, args.tuningMethod.value,
        TuneParameters(args), args.training.value, args.validation, args.evaluation))
  }

  /** `const { id, name } = await client.tune(...)` and the printed object:
      destructuring a nullish result throws a TypeError. */
  function Printed(result: JsValue): (r: Result<JsValue, JsValue>)
    ensures r.Err? <==> IsNullish(result)
    ensures r.Ok? ==> Prop(r.value, "id") == Prop(result, "id") && Prop(r.value, "name") == Prop(result, "name")
  {
    if IsNullish(result) then Err(NullishReadError)
    else Ok(PlainObject(map["id" := Prop(result, "id"), "name" := Prop(result, "name")]))
  }

  /** Only `id` and `name` survive: other fields of the result are dropped. */
  lemma PrintedDropsOtherFields(result: JsValue, key: string)
    requires !IsNullish(result) && key != "id" && key != "name"
    ensures Printed(result).Ok? && Prop(Printed(result).value, key) == Undefined
  {
  }
}
