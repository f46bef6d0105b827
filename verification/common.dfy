/** The small predicates and the object filter of src/utils/common.js. */
module Common {

  import opened JsValues

  /** `pickDefined`: the entries of `m` whose value is not `undefined`. */
  function PickDefined(m: map<string, JsValue>): (r: map<string, JsValue>)
    ensures forall k :: k in r <==> k in m && m[k] != Undefined
    ensures forall k :: k in r ==> r[k] == m[k]
  {
    map k | k in m && m[k] != Undefined :: m[k]
  }

  /** Picking twice picks nothing more. */
  lemma PickDefinedIdempotent(m: map<string, JsValue>)
    ensures PickDefined(PickDefined(m)) == PickDefined(m)
  {
  }

  /** Only `undefined` is dropped: `null`, `false`, `0` and `""` stay. */
  lemma PickDefinedKeepsFalsy(m: map<string, JsValue>, k: string)
    requires k in m && m[k] in {Null, Bool(false), Num(0.0), Str("")}
    ensures k in PickDefined(m) && PickDefined(m)[k] == m[k]
  {
  }

  /** `isAbortError`: a truthy error whose `name` is "AbortError". */
  predicate IsAbortError(err: JsValue) {
    Truthy(err) && Prop(err, "name") == Str("AbortError")
  }

  /** Only an object can be an abort error: `null`, `undefined` and every
      primitive fail the test, and an object passes iff its `name`, own or
      inherited, is "AbortError". */
  lemma AbortErrorCharacterization(err: JsValue)
    ensures IsAbortError(err) <==> err.Obj? && Prop(err, "name") == Str("AbortError")
  {
  }

  /** `null`, `undefined` and the bare string "AbortError" are not abort
      errors; an Error whose prototype names it "AbortError" is one. */
  lemma AbortErrorExamples()
    ensures !IsAbortError(Null) && !IsAbortError(Undefined) && !IsAbortError(Str("AbortError"))
    ensures IsAbortError(Obj(map[], map["name" := Str("AbortError")], {ObjectClass, ErrorClass}))
    ensures !IsAbortError(Obj(map["name" := Str("Error")], map["name" := Str("AbortError")], {ObjectClass, ErrorClass}))
  {
  }

  /** The buffers of Ctrl+C, Ctrl+D and Ctrl+Z. */
  const CANCEL_OPERATION_KEYS: seq<seq<byte>> := [[0x03], [0x04], [0x1a]]

  /** `isCancelOperationKey`: a Buffer byte-for-byte equal to one of the
      cancel keys. */
  predicate IsCancelOperationKey(v: JsValue) {
    v.Buf? && exists i :: 0 <= i < |CANCEL_OPERATION_KEYS| && CANCEL_OPERATION_KEYS[i] == v.bytes
  }

  /** The cancel keys are exactly the one-byte buffers 0x03, 0x04 and 0x1a. */
  lemma CancelKeyCharacterization(v: JsValue)
    ensures IsCancelOperationKey(v) <==>
      v.Buf? && |v.bytes| == 1 && v.bytes[0] in {0x03, 0x04, 0x1a}
  {
    if v.Buf? && |v.bytes| == 1 && v.bytes[0] in {0x03, 0x04, 0x1a} {
      if v.bytes[0] == 0x03 { assert CANCEL_OPERATION_KEYS[0] == v.bytes; }
      else if v.bytes[0] == 0x04 { assert CANCEL_OPERATION_KEYS[1] == v.bytes; }
      else { assert CANCEL_OPERATION_KEYS[2] == v.bytes; }
    }
  }

  /** A string holding a control character is not a Buffer, and a longer
      buffer that contains a cancel byte is not a cancel key. */
  lemma NotCancelKeys()
    ensures !IsCancelOperationKey(Str("\U{3}"))
    ensures !IsCancelOperationKey(Buf([0x03, 0x03]))
    ensures !IsCancelOperationKey(Buf([0x61, 0x04]))
  {
    CancelKeyCharacterization(Buf([0x03, 0x03]));
    CancelKeyCharacterization(Buf([0x61, 0x04]));
  }
}
