/** What the commands write: plain text, raw bytes, the JSON serialisation
    of a value (kept symbolic: serialisation itself is not modelled), and
    readline's clear-line control key (`rl.write(null, { ctrl: true, name: "u" })`). */
module Io {

  import opened Wrappers
  import opened JsValues

  datatype Write = Text(s: string) | Bytes(b: seq<byte>) | Json(v: JsValue) | ClearLine

  /** Node's messages for a value a byte stream refuses (`ERR_STREAM_NULL_VALUES`
      and `ERR_INVALID_ARG_TYPE`). */
  const NULL_CHUNK_MESSAGE: string := "May not write null values to stream"
  const INVALID_CHUNK_MESSAGE: string :=
    "The \"chunk\" argument must be of type string or an instance of Buffer or Uint8Array"

  /** The TypeError `stream.write` throws for a value it cannot write. */
  function WriteError(v: JsValue): (r: JsValue)
    ensures InstanceOf(r, TypeErrorClass) && !IsNullish(r)
    ensures Prop(r, "message") == Str(if v == Null then NULL_CHUNK_MESSAGE else INVALID_CHUNK_MESSAGE)
  {
    Obj(map["message" := Str(if v == Null then NULL_CHUNK_MESSAGE else INVALID_CHUNK_MESSAGE),
            "code" := Str(if v == Null then "ERR_STREAM_NULL_VALUES" else "ERR_INVALID_ARG_TYPE")],
        map["name" := Str("TypeError")],
        {ObjectClass, ErrorClass, TypeErrorClass})
  }

  /** `stream.write(v)` on a byte stream (standard output): strings and
      Buffers are written, anything else throws. */
  function StreamWrite(v: JsValue): (r: Result<Write, JsValue>)
    ensures r.Ok? <==> v.Str? || v.Buf?
    ensures v.Str? ==> r == Ok(Text(v.s))
    ensures v.Buf? ==> r == Ok(Bytes(v.bytes))
    ensures r.Err? ==> r.error == WriteError(v) && !IsNullish(r.error) && Prop(r.error, "message").Str?
  {
    match v
    case Str(s) => Ok(Text(s))
    case Buf(bytes) => Ok(Bytes(bytes))
    case _ => Err(WriteError(v))
  }

  /** `stream.write(JSON.stringify(v))`: every value serialises to a string
      except `undefined`, for which `JSON.stringify` returns `undefined`
      and the write throws. */
  function JsonWrite(v: JsValue): (r: Result<Write, JsValue>)
    ensures r.Ok? <==> v != Undefined
    ensures r.Ok? ==> r.value == Json(v)
    ensures r.Err? ==> r == StreamWrite(Undefined)
  {
    if v == Undefined then Err(WriteError(Undefined)) else Ok(Json(v))
  }

  /** The `{ error: message }` record written in place of a failed output. */
  function ErrorRecord(message: JsValue): JsValue {
    PlainObject(map["error" := message])
  }

  /** JSON lines: each record serialised and followed by a newline. */
  function Lines(records: seq<JsValue>): (r: seq<Write>)
    ensures |r| == 2 * |records|
    ensures forall i :: 0 <= i < |records| ==> r[2 * i] == Json(records[i]) && r[2 * i + 1] == Text("\n")
  {
    if |records| == 0 then []
    else
      var rest := Lines(records[1..]);
      assert forall i :: 1 <= i < |records| ==> rest[2 * (i - 1)] == Json(records[i]);
      [Json(records[0]), Text("\n")] + rest
  }

  /** The lines of a record list are the first record's line and then the
      rest's. */
  lemma LinesCons(x: JsValue, rest: seq<JsValue>)
    ensures Lines([x] + rest) == [Json(x), Text("\n")] + Lines(rest)
  {
    assert ([x] + rest)[1..] == rest;
  }
}
