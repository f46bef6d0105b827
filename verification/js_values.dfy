/** The JavaScript values the command-line client inspects: the arguments yargs
    hands over, the JSON values read from input streams, the results and
    rejection reasons the SDK produces. Functions and symbols never reach the
    decisions that are modelled, so they are not represented. */
module JsValues {

  import opened Wrappers

  newtype byte = x: int | 0 <= x < 256

  /** Constructors of which an object may be an instance. */
  datatype JsClass =
    | ObjectClass
    | ErrorClass
    | TypeErrorClass
    | SdkBaseError          // BaseError of the SDK
    | SdkInvalidInputError  // InvalidInputError of the SDK
    | LocalInvalidInputError // InvalidInputError declared by the client itself
    | OtherClass(name: string)

  /** An `Obj` carries its own properties, the properties it inherits through
      its prototype chain, and the classes on that chain (for `instanceof`). */
  datatype JsValue =
    | Undefined
    | Null
    | Bool(b: bool)
    | Num(n: real)
    | Str(s: string)
    | Buf(bytes: seq<byte>)
    | Arr(items: seq<JsValue>)
    | Obj(own: map<string, JsValue>, inherited: map<string, JsValue>, classes: set<JsClass>)

  /** Values other than `undefined`: what a flag holds once it was given. */
  type Defined = v: JsValue | v != Undefined witness Null

  predicate IsNullish(v: JsValue) {
    v == Undefined || v == Null
  }

  /** JavaScript truthiness (NaN is not representable here). */
  predicate Truthy(v: JsValue) {
    match v
    case Undefined => false
    case Null => false
    case Bool(b) => b
    case Num(n) => n != 0.0
    case Str(s) => |s| > 0
    case _ => true
  }

  /** Property read `v?.[key]`: own properties shadow inherited ones; a
      missing property, and any property of a primitive, reads as `undefined`.
      Where the source reads with `.` rather than `?.`, the caller checks
      `IsNullish` first, because that read throws a TypeError. */
  function Prop(v: JsValue, key: string): JsValue {
    match v
    case Obj(own, inherited, _) =>
      if key in own then own[key] else if key in inherited then inherited[key] else Undefined
    case _ => Undefined
  }

  /** `Object.hasOwn(v, key)` for a non-nullish `v`. */
  predicate HasOwn(v: JsValue, key: string) {
    v.Obj? && key in v.own
  }

  /** `v instanceof c`. */
  predicate InstanceOf(v: JsValue, c: JsClass) {
    v.Obj? && c in v.classes
  }

  /** A plain object literal `{ ... }`. */
  function PlainObject(props: map<string, JsValue>): JsValue {
    Obj(props, map[], {ObjectClass})
  }

  /** The message V8 gives a TypeError raised by reading a property of
      `null` or `undefined`; its exact wording is the engine's, not the client's. */
  const NULLISH_READ_MESSAGE: string := "Cannot read properties of null or undefined"

  /** The TypeError thrown by `v.key` when `v` is nullish. */
  const NullishReadError: JsValue :=
    Obj(map["message" := Str(NULLISH_READ_MESSAGE)], map["name" := Str("TypeError")],
        {ObjectClass, ErrorClass, TypeErrorClass})

  /** Property read `v.key` with JavaScript's `.`: throws on a nullish `v`. */
  function ReadProp(v: JsValue, key: string): (r: Result<JsValue, JsValue>)
    ensures r.Err? <==> IsNullish(v)
    ensures r.Ok? ==> r.value == Prop(v, key)
  {
    if IsNullish(v) then Err(NullishReadError) else Ok(Prop(v, key))
  }

}
