/** `generate config` (src/commands/generate/config.js): the return flags are
    folded into `parameters.return_options`, and the handler either updates
    the stored configuration (merging or replacing it) or, with nothing to
    send, resets or reads it. */
module GenerateConfig {

  import opened Wrappers
  import opened JsValues
  import opened Common
  import opened Parameters

  /** The return flags; `None` is a flag that was not given. */
  datatype ReturnFlags = ReturnFlags(
    inputText: Option<Defined>,
    generatedTokens: Option<Defined>,
    inputTokens: Option<Defined>,
    tokenLogprobs: Option<Defined>,
    tokenRanks: Option<Defined>,
    topNTokens: Option<Defined>)

  predicate NoReturnFlags(rf: ReturnFlags) {
    && rf.inputText.None? && rf.generatedTokens.None? && rf.inputTokens.None?
    && rf.tokenLogprobs.None? && rf.tokenRanks.None? && rf.topNTokens.None?
  }

  const RETURN_OPTION_KEYS: set<string> := {
    "input_text", "generated_tokens", "input_tokens", "token_logprobs",
    "input_ranks", "top_n_tokens"}

  /** The object handed to `pickDefined`; `--token-ranks` goes under
      `input_ranks`. */
  function ReturnEntries(rf: ReturnFlags): map<string, JsValue> {
    map[
      "input_text" := ArgValue(rf.inputText),
      "generated_tokens" := ArgValue(rf.generatedTokens),
      "input_tokens" := ArgValue(rf.inputTokens),
      "token_logprobs" := ArgValue(rf.tokenLogprobs),
      "input_ranks" := ArgValue(rf.tokenRanks),
      "top_n_tokens" := ArgValue(rf.topNTokens)]
  }

  /** `return_options`: exactly the given return flags under their keys. */
  function ReturnOptions(rf: ReturnFlags): (r: map<string, JsValue>)
    ensures r.Keys <= RETURN_OPTION_KEYS
    ensures Carries(r, "input_text", rf.inputText)
    ensures Carries(r, "generated_tokens", rf.generatedTokens)
    ensures Carries(r, "input_tokens", rf.inputTokens)
    ensures Carries(r, "token_logprobs", rf.tokenLogprobs)
    ensures Carries(r, "input_ranks", rf.tokenRanks)
    ensures Carries(r, "top_n_tokens", rf.topNTokens)
    ensures |r| == 0 <==> NoReturnFlags(rf)
  {
    var e := ReturnEntries(rf);
    assert e.Keys == RETURN_OPTION_KEYS;
    var r := PickDefined(e);
    assert |r| == 0 ==> r.Keys == {};
    r
  }

  /** The `parameters` the config middleware leaves behind: untouched
      without return flags, otherwise a copy with `return_options` added.
      The incoming map is the one the `generate` middleware assembled, whose
      keys never include `return_options`, so lodash's deep merge adds that
      key and copies every other one. */
  function ConfigParameters(parameters: Option<map<string, JsValue>>, rf: ReturnFlags): (r: Option<map<string, JsValue>>)
    requires parameters.Some? ==> parameters.value.Keys <= PARAMETER_KEYS
    ensures NoReturnFlags(rf) ==> r == parameters
    ensures !NoReturnFlags(rf) ==>
      && r.Some?
      && r.value.Keys == parameters.GetOr(map[]).Keys + {"return_options"}
      && r.value["return_options"] == PlainObject(ReturnOptions(rf))
    ensures !NoReturnFlags(rf) && parameters.Some? ==>
      forall k :: k in parameters.value ==> r.value[k] == parameters.value[k]
  {
    var returnOptions := ReturnOptions(rf);
    if |returnOptions| > 0 then
      assert "return_options" !in parameters.GetOr(map[]) by {
        assert "return_options" !in PARAMETER_KEYS;
      }
      Some(parameters.GetOr(map[])["return_options" := PlainObject(returnOptions)])
    else
      parameters
  }

  /** After both middlewares, `parameters` is absent only when neither a
      generation flag nor a return flag was given. */
  lemma ConfigParametersAbsent(f: Flags, rf: ReturnFlags)
    ensures ConfigParameters(AssembleParameters(f), rf).None? <==> NoFlags(f) && NoReturnFlags(rf)
  {
    var parameters := AssembleParameters(f);
    assert parameters.None? <==> NoFlags(f);
  }

  const CONFLICT_MESSAGE: string := "Arguments replace and reset are mutually exclusive"

  /** The arguments the handler reads. */
  datatype ConfigArgs = ConfigArgs(
    model: Option<string>,
    parameters: Option<map<string, JsValue>>,
    replace: Option<bool>,
    reset: Option<bool>,
    timeout: JsValue)

  /** The one `generateConfig` call the handler makes. */
  datatype ConfigCall =
    | Update(modelId: Option<string>, parameters: Option<map<string, JsValue>>, strategy: string, timeout: JsValue)
    | ResetOrRead(reset: Option<bool>, timeout: JsValue)

  /** `args.model || args.parameters`: a non-empty model name or any
      parameters (always a non-empty object here). */
  predicate HasInput(args: ConfigArgs) {
    (args.model.Some? && |args.model.value| > 0) || args.parameters.Some?
  }

  function BoolArg(b: Option<bool>): JsValue {
    match b
    case None => Undefined
    case Some(v) => Bool(v)
  }

  /** The handler's choice of call, after yargs' `conflicts` check. */
  function ConfigCommand(args: ConfigArgs): (r: Result<ConfigCall, string>)
    ensures r.Err? <==> args.replace.Some? && args.reset.Some?
    ensures r.Err? ==> r.error == CONFLICT_MESSAGE
    ensures r.Ok? ==> (r.value.Update? <==> HasInput(args))
    ensures r.Ok? && r.value.Update? ==>
      && r.value.modelId == args.model
      && r.value.parameters == args.parameters
      && (r.value.strategy == "replace" <==> args.replace == Some(true))
      && (r.value.strategy == "replace" || r.value.strategy == "merge")
    ensures r.Ok? && r.value.ResetOrRead? ==> r.value.reset == args.reset
    ensures r.Ok? ==> r.value.timeout == args.timeout
  {
    if args.replace.Some? && args.reset.Some? then
      Err(CONFLICT_MESSAGE)
    else
      var hasInput := Truthy(if args.model.Some? then Str(args.model.value) else Undefined)
        || args.parameters.Some?;
      if hasInput then
        Ok(Update(args.model, args.parameters, if Truthy(BoolArg(args.replace)) then "replace" else "merge", args.timeout))
      else
        Ok(ResetOrRead(args.reset, args.timeout))
  }

  /** `--reset` alone sends a reset and nothing else; the merge strategy is
      the default of an update. */
  lemma ResetAloneResets(timeout: JsValue)
    ensures ConfigCommand(ConfigArgs(None, None, None, Some(true), timeout)) == Ok(ResetOrRead(Some(true), timeout))
    ensures ConfigCommand(ConfigArgs(Some("m"), None, None, None, timeout)) == Ok(Update(Some("m"), None, "merge", timeout))
  {
  }

  /** An empty model name with no parameters reads the configuration. */
  lemma EmptyModelReads(reset: Option<bool>, timeout: JsValue)
    ensures ConfigCommand(ConfigArgs(Some(""), None, None, reset, timeout)) == Ok(ResetOrRead(reset, timeout))
  {
  }
}
