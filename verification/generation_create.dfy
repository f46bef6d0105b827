/** `text generation create` (src/commands/text/generation/create.js): one
    request per input, all issued before any is awaited, then either every
    outcome printed in input order (`--allow-errors`) or all-or-nothing. The
    outcomes of the requests are given in input order. */
module GenerationCreate {

  import opened Wrappers
  import opened JsValues

  datatype Request = Request(modelId: string, parameters: Option<map<string, JsValue>>, input: string)

  /** `allow-errors` is a boolean flag defaulting to false. */
  function AllowErrors(flag: Option<bool>): bool {
    flag.GetOr(false)
  }

  /** `inputs.map(...)`: the requests, built from the inputs alone, so every
      request exists before any outcome is looked at. */
  function Requests(inputs: seq<string>, model: string, parameters: Option<map<string, JsValue>>)
    : (r: seq<Request>)
    ensures |r| == |inputs|
    ensures forall i :: 0 <= i < |r| ==> r[i].input == inputs[i]
    ensures forall i :: 0 <= i < |r| ==> r[i].modelId == model && r[i].parameters == parameters
  {
    if |inputs| == 0 then [] else [Request(model, parameters, inputs[0])] + Requests(inputs[1..], model, parameters)
  }

  /** The record `args.print` receives for a settled outcome: the value or
      the rejection reason. */
  function Settled(outcome: Result<JsValue, JsValue>): JsValue {
    match outcome
    case Ok(v) => v
    case Err(reason) => reason
  }

  predicate AllFulfilled(outcomes: seq<Result<JsValue, JsValue>>) {
    forall i :: 0 <= i < |outcomes| ==> outcomes[i].Ok?
  }

  /** What the handler prints, and whether it rejects. Which reason
      `Promise.all` rejects with depends on timing and is not modelled. */
  datatype Emission = Emission(printed: seq<JsValue>, rejects: bool)

  function SettleAll(outcomes: seq<Result<JsValue, JsValue>>): (r: seq<JsValue>)
    ensures |r| == |outcomes|
    ensures forall i :: 0 <= i < |r| ==> r[i] == Settled(outcomes[i])
  {
    if |outcomes| == 0 then [] else [Settled(outcomes[0])] + SettleAll(outcomes[1..])
  }

  function Emit(outcomes: seq<Result<JsValue, JsValue>>, allowErrors: bool): (r: Emission)
    ensures allowErrors ==> !r.rejects && |r.printed| == |outcomes|
    ensures allowErrors ==> forall i :: 0 <= i < |outcomes| ==>
      r.printed[i] == (if outcomes[i].Ok? then outcomes[i].value else outcomes[i].error)
    ensures !allowErrors ==> (r.rejects <==> exists i :: 0 <= i < |outcomes| && outcomes[i].Err?)
    ensures !allowErrors && r.rejects ==> r.printed == []
    ensures !allowErrors && !r.rejects ==> |r.printed| == |outcomes|
    ensures !allowErrors && !r.rejects ==> forall i :: 0 <= i < |outcomes| ==> r.printed[i] == outcomes[i].value
  {
    if allowErrors then Emission(SettleAll(outcomes), false)
    else if AllFulfilled(outcomes) then Emission(SettleAll(outcomes), false)
    else Emission([], true)
  }

  /** When nothing fails the two error policies print the same records. */
  lemma PoliciesAgreeWithoutFailures(outcomes: seq<Result<JsValue, JsValue>>)
    requires AllFulfilled(outcomes)
    ensures Emit(outcomes, true) == Emit(outcomes, false)
  {
  }

  /** The handler as a whole: the requests for the selected inputs and the
      emission of their outcomes. */
  function Create(inputs: seq<string>, model: string, parameters: Option<map<string, JsValue>>,
                  allowErrors: Option<bool>, outcomes: seq<Result<JsValue, JsValue>>)
    : (r: (seq<Request>, Emission))
    requires |outcomes| == |inputs|
    ensures |r.0| == |inputs|
    ensures AllowErrors(allowErrors) ==> !r.1.rejects && |r.1.printed| == |inputs|
    ensures allowErrors.None? && (exists i :: 0 <= i < |outcomes| && outcomes[i].Err?) ==> r.1.rejects && r.1.printed == []
  {
    (Requests(inputs, model, parameters), Emit(outcomes, AllowErrors(allowErrors)))
  }
}
