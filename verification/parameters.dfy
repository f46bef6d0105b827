/** The generation-parameter middleware shared by `generate`
    (src/commands/generate/index.js) and `text generation`
    (src/commands/text/generation/index.js): the optional flags become the
    request's `parameters` under snake_case keys, undefined ones dropped, and
    no `parameters` at all when nothing is set. The two commands differ in
    two ways: `--model` is mandatory for `text generation`, and only
    `generate` declares a `--stream` option (`text generation` still reads
    `args.stream` into the parameters, so there it is set only by a
    profile). */
module Parameters {

  import opened Wrappers
  import opened JsValues
  import opened Common

  const SINGLE_MODEL: string := "Only a single model must be specified"
  const MISSING_MODEL: string := "Missing required argument: model"

  /** The `model` coercion: a repeated flag arrives as an array and is
      rejected. */
  function CoerceModel(v: JsValue): (r: Result<string, string>)
    ensures r.Ok? <==> v.Str?
    ensures r.Ok? ==> r.value == v.s
    ensures r.Err? ==> r.error == SINGLE_MODEL
  {
    if v.Str? then Ok(v.s) else Err(SINGLE_MODEL)
  }

  /** `model` of `generate`: optional, but a single string when given. */
  function OptionalModel(v: Option<JsValue>): (r: Result<Option<string>, string>)
    ensures v.None? ==> r == Ok(None)
    ensures v.Some? ==> (r.Ok? <==> v.value.Str?)
    ensures r.Ok? && v.Some? ==> r.value == Some(v.value.s)
  {
    match v
    case None => Ok(None)
    case Some(m) => if m.Str? then Ok(Some(m.s)) else Err(SINGLE_MODEL)
  }

  /** `model` of `text generation`: mandatory (`demandOption`) and a single
      string. */
  function RequiredModel(v: Option<JsValue>): (r: Result<string, string>)
    ensures r.Ok? <==> v.Some? && v.value.Str?
    ensures v.None? ==> r == Err(MISSING_MODEL)
    ensures r.Ok? ==> r.value == v.value.s
  {
    match v
    case None => Err(MISSING_MODEL)
    case Some(m) => CoerceModel(m)
  }

  const DECODING_METHODS: seq<string> := ["greedy", "sample"]

  /** One of the `choices` of `--decoding-method`. */
  predicate IsDecodingMethod(v: JsValue) {
    v.Str? && v.s in DECODING_METHODS
  }

  /** What the `choices` check accepts: no flag, one of the choices, or, for
      a repeated flag (an array), choices only. */
  predicate DecodingMethodAllowed(v: Option<Defined>) {
    || v.None?
    || IsDecodingMethod(v.value)
    || (v.value.Arr? && forall i :: 0 <= i < |v.value.items| ==> IsDecodingMethod(v.value.items[i]))
  }

  /** The generation flags; `None` is a flag that was not given. */
  datatype Flags = Flags(
    decodingMethod: Option<Defined>,
    decayFactor: Option<Defined>,
    decayStartIndex: Option<Defined>,
    maxNewTokens: Option<Defined>,
    minNewTokens: Option<Defined>,
    randomSeed: Option<Defined>,
    stopSequences: Option<Defined>,
    temperature: Option<Defined>,
    timeLimit: Option<Defined>,
    topK: Option<Defined>,
    topP: Option<Defined>,
    repetitionPenalty: Option<Defined>,
    truncateInputTokens: Option<Defined>,
    stream: Option<Defined>)

  /** A flag as yargs leaves it in `args`. */
  function ArgValue(f: Option<Defined>): JsValue {
    match f
    case None => Undefined
    case Some(v) => v
  }

  /** yargs' rejection of values outside an option's `choices`. */
  datatype ChoiceError = InvalidValues(argument: string, given: seq<JsValue>)

  /** `[].concat(value)`: an array's items, or the value alone. */
  function Values(v: JsValue): (r: seq<JsValue>)
    ensures v.Arr? ==> r == v.items
    ensures !v.Arr? ==> r == [v]
  {
    if v.Arr? then v.items else [v]
  }

  /** The values that are not choices, in order. */
  function NotChoices(values: seq<JsValue>): (r: seq<JsValue>)
    ensures forall x :: x in r <==> x in values && !IsDecodingMethod(x)
    ensures |r| <= |values|
  {
    if |values| == 0 then []
    else (if IsDecodingMethod(values[0]) then [] else [values[0]]) + NotChoices(values[1..])
  }

  /** With nothing reported, every value is a choice. */
  lemma AllChoices(v: Defined)
    requires |NotChoices(Values(v))| == 0
    ensures DecodingMethodAllowed(Some(v))
  {
    if v.Arr? {
      forall i | 0 <= i < |v.items| ensures IsDecodingMethod(v.items[i]) {
        assert v.items[i] in Values(v);
      }
    } else {
      assert v in Values(v);
    }
  }

  /** A reported value makes the flag invalid. */
  lemma NotAllChoices(v: Defined, x: JsValue)
    requires x in NotChoices(Values(v))
    ensures !DecodingMethodAllowed(Some(v))
  {
    if v.Arr? {
      var i :| 0 <= i < |v.items| && v.items[i] == x;
    }
  }

  /** yargs' `choices` validation of `--decoding-method`, run before the
      middleware: every value of the flag is compared with the choices, and
      the ones that are not among them are reported. */
  function CheckDecodingMethod(f: Flags): (r: Result<Flags, ChoiceError>)
    ensures r.Ok? <==> DecodingMethodAllowed(f.decodingMethod)
    ensures r.Ok? ==> r.value == f
    ensures r.Err? ==> r.error.argument == "decoding-method" && |r.error.given| > 0
    ensures r.Err? ==> forall x :: x in r.error.given <==> x in Values(f.decodingMethod.value) && !IsDecodingMethod(x)
  {
    match f.decodingMethod
    case None => Ok(f)
    case Some(v) =>
      var invalid := NotChoices(Values(v));
      if |invalid| == 0 then
        AllChoices(v);
        Ok(f)
      else
        NotAllChoices(v, invalid[0]);
        Err(InvalidValues("decoding-method", invalid))
  }

  /** `length_penalty`: the defined decay settings. */
  function LengthPenalty(f: Flags): (r: map<string, JsValue>)
    ensures "decay_factor" in r <==> f.decayFactor.Some?
    ensures "start_index" in r <==> f.decayStartIndex.Some?
    ensures f.decayFactor.Some? ==> r["decay_factor"] == f.decayFactor.value
    ensures f.decayStartIndex.Some? ==> r["start_index"] == f.decayStartIndex.value
    ensures r.Keys <= {"decay_factor", "start_index"}
  {
    PickDefined(map["decay_factor" := ArgValue(f.decayFactor), "start_index" := ArgValue(f.decayStartIndex)])
  }

  /** The `length_penalty` entry: the decay settings, or `undefined` when
      there are none. */
  function PenaltyEntry(f: Flags): (r: JsValue)
    ensures r == Undefined <==> f.decayFactor.None? && f.decayStartIndex.None?
    ensures r != Undefined ==> r == PlainObject(LengthPenalty(f))
  {
    var penalty := LengthPenalty(f);
    if |penalty| > 0 then PlainObject(penalty)
    else
      assert penalty.Keys == {};
      Undefined
  }

  /** Whether no flag was given at all. */
  predicate NoFlags(f: Flags) {
    && f.decodingMethod.None? && f.decayFactor.None? && f.decayStartIndex.None?
    && f.maxNewTokens.None? && f.minNewTokens.None? && f.randomSeed.None?
    && f.stopSequences.None? && f.temperature.None? && f.timeLimit.None?
    && f.topK.None? && f.topP.None? && f.repetitionPenalty.None?
    && f.truncateInputTokens.None? && f.stream.None?
  }

  /** The object handed to `pickDefined`, key for key as the middleware
      writes it. */
  function Entries(f: Flags): map<string, JsValue> {
    map[
      "decoding_method" := ArgValue(f.decodingMethod),
      "length_penalty" := PenaltyEntry(f),
      "max_new_tokens" := ArgValue(f.maxNewTokens),
      "min_new_tokens" := ArgValue(f.minNewTokens),
      "random_seed" := ArgValue(f.randomSeed),
      "stop_sequences" := ArgValue(f.stopSequences),
      "temperature" := ArgValue(f.temperature),
      "time_limit" := ArgValue(f.timeLimit),
      "top_k" := ArgValue(f.topK),
      "top_p" := ArgValue(f.topP),
      "repetition_penalty" := ArgValue(f.repetitionPenalty),
      "truncate_input_tokens" := ArgValue(f.truncateInputTokens),
      "stream" := ArgValue(f.stream)]
  }

  /** `m` carries the flag `flag` under `key` exactly when it was given. */
  predicate Carries(m: map<string, JsValue>, key: string, flag: Option<Defined>) {
    (key in m <==> flag.Some?) && (flag.Some? ==> m[key] == flag.value)
  }

  const PARAMETER_KEYS: set<string> := {
    "decoding_method", "length_penalty", "max_new_tokens", "min_new_tokens",
    "random_seed", "stop_sequences", "temperature", "time_limit", "top_k",
    "top_p", "repetition_penalty", "truncate_input_tokens", "stream"}

  /** The middleware: `parameters` with every given flag under its key,
      `length_penalty` only when a decay setting is given, and `undefined`
      (`None`) when the whole map is empty. */
  function AssembleParameters(f: Flags): (r: Option<map<string, JsValue>>)
    ensures r.None? <==> NoFlags(f)
    ensures r.Some? ==> r.value.Keys <= PARAMETER_KEYS
    ensures r.Some? ==> Carries(r.value, "decoding_method", f.decodingMethod)
    ensures r.Some? ==> Carries(r.value, "max_new_tokens", f.maxNewTokens)
    ensures r.Some? ==> Carries(r.value, "min_new_tokens", f.minNewTokens)
    ensures r.Some? ==> Carries(r.value, "random_seed", f.randomSeed)
    ensures r.Some? ==> Carries(r.value, "stop_sequences", f.stopSequences)
    ensures r.Some? ==> Carries(r.value, "temperature", f.temperature)
    ensures r.Some? ==> Carries(r.value, "time_limit", f.timeLimit)
    ensures r.Some? ==> Carries(r.value, "top_k", f.topK)
    ensures r.Some? ==> Carries(r.value, "top_p", f.topP)
    ensures r.Some? ==> Carries(r.value, "repetition_penalty", f.repetitionPenalty)
    ensures r.Some? ==> Carries(r.value, "truncate_input_tokens", f.truncateInputTokens)
    ensures r.Some? ==> Carries(r.value, "stream", f.stream)
    ensures r.Some? ==>
      ("length_penalty" in r.value <==> f.decayFactor.Some? || f.decayStartIndex.Some?)
    ensures r.Some? && "length_penalty" in r.value ==>
      r.value["length_penalty"] == PlainObject(LengthPenalty(f))
  {
    var parameters := PickDefined(Entries(f));
    PickedCarries(f);
    if |parameters| > 0 then
      Some(parameters)
    else
      NothingPickedMeansNoFlags(f);
      None
  }

  /** The entries, key by key. */
  lemma EntriesValues(f: Flags)
    ensures Entries(f).Keys == PARAMETER_KEYS
    ensures Entries(f)["decoding_method"] == ArgValue(f.decodingMethod)
    ensures Entries(f)["max_new_tokens"] == ArgValue(f.maxNewTokens)
    ensures Entries(f)["min_new_tokens"] == ArgValue(f.minNewTokens)
    ensures Entries(f)["random_seed"] == ArgValue(f.randomSeed)
    ensures Entries(f)["stop_sequences"] == ArgValue(f.stopSequences)
    ensures Entries(f)["temperature"] == ArgValue(f.temperature)
    ensures Entries(f)["time_limit"] == ArgValue(f.timeLimit)
    ensures Entries(f)["top_k"] == ArgValue(f.topK)
    ensures Entries(f)["top_p"] == ArgValue(f.topP)
    ensures Entries(f)["repetition_penalty"] == ArgValue(f.repetitionPenalty)
    ensures Entries(f)["truncate_input_tokens"] == ArgValue(f.truncateInputTokens)
    ensures Entries(f)["stream"] == ArgValue(f.stream)
    ensures Entries(f)["length_penalty"] == PenaltyEntry(f)
  {
  }

  /** What `pickDefined` keeps of the entries. */
  lemma PickedCarries(f: Flags)
    ensures PickDefined(Entries(f)).Keys <= PARAMETER_KEYS
    ensures Carries(PickDefined(Entries(f)), "decoding_method", f.decodingMethod)
    ensures Carries(PickDefined(Entries(f)), "max_new_tokens", f.maxNewTokens)
    ensures Carries(PickDefined(Entries(f)), "min_new_tokens", f.minNewTokens)
    ensures Carries(PickDefined(Entries(f)), "random_seed", f.randomSeed)
    ensures Carries(PickDefined(Entries(f)), "stop_sequences", f.stopSequences)
    ensures Carries(PickDefined(Entries(f)), "temperature", f.temperature)
    ensures Carries(PickDefined(Entries(f)), "time_limit", f.timeLimit)
    ensures Carries(PickDefined(Entries(f)), "top_k", f.topK)
    ensures Carries(PickDefined(Entries(f)), "top_p", f.topP)
    ensures Carries(PickDefined(Entries(f)), "repetition_penalty", f.repetitionPenalty)
    ensures Carries(PickDefined(Entries(f)), "truncate_input_tokens", f.truncateInputTokens)
    ensures Carries(PickDefined(Entries(f)), "stream", f.stream)
    ensures "length_penalty" in PickDefined(Entries(f)) <==> f.decayFactor.Some? || f.decayStartIndex.Some?
    ensures "length_penalty" in PickDefined(Entries(f)) ==>
      PickDefined(Entries(f))["length_penalty"] == PlainObject(LengthPenalty(f))
  {
    var e := Entries(f);
    EntriesValues(f);
    PickedArg(e, "decoding_method", f.decodingMethod);
    PickedArg(e, "max_new_tokens", f.maxNewTokens);
    PickedArg(e, "min_new_tokens", f.minNewTokens);
    PickedArg(e, "random_seed", f.randomSeed);
    PickedArg(e, "stop_sequences", f.stopSequences);
    PickedArg(e, "temperature", f.temperature);
    PickedArg(e, "time_limit", f.timeLimit);
    PickedArg(e, "top_k", f.topK);
    PickedArg(e, "top_p", f.topP);
    PickedArg(e, "repetition_penalty", f.repetitionPenalty);
    PickedArg(e, "truncate_input_tokens", f.truncateInputTokens);
    PickedArg(e, "stream", f.stream);
  }

  /** `pickDefined` keeps a flag's entry exactly when the flag was given. */
  lemma PickedArg(m: map<string, JsValue>, key: string, flag: Option<Defined>)
    requires key in m && m[key] == ArgValue(flag)
    ensures Carries(PickDefined(m), key, flag)
  {
  }

  /** An empty `pickDefined` result means no flag was given. */
  lemma NothingPickedMeansNoFlags(f: Flags)
    requires |PickDefined(Entries(f))| == 0
    ensures NoFlags(f)
  {
    PickedCarries(f);
    assert PickDefined(Entries(f)).Keys == {};
  }

  /** Once the `choices` check passed, the `decoding_method` the request
      carries is "greedy" or "sample" (or a list of those). */
  lemma ChoicesGuardDecodingMethod(f: Flags)
    requires CheckDecodingMethod(f).Ok?
    ensures var parameters := AssembleParameters(f);
      parameters.Some? && "decoding_method" in parameters.value ==>
        var v := parameters.value["decoding_method"];
        IsDecodingMethod(v) || (v.Arr? && forall i :: 0 <= i < |v.items| ==> IsDecodingMethod(v.items[i]))
  {
    var parameters := AssembleParameters(f);
    if parameters.Some? && "decoding_method" in parameters.value {
      assert parameters.value["decoding_method"] == f.decodingMethod.value;
    }
  }

  /** A value outside the choices, such as "beam", is reported and stops the
      command before the middleware runs. */
  lemma BeamRejected(f: Flags)
    requires f.decodingMethod == Some(Str("beam"))
    ensures CheckDecodingMethod(f) == Err(InvalidValues("decoding-method", [Str("beam")]))
  {
    assert !IsDecodingMethod(Str("beam"));
    assert Values(Str("beam")) == [Str("beam")];
    var beam: seq<JsValue> := [Str("beam")];
    assert beam[1..] == [];
    assert NotChoices(beam) == beam;
  }
}
