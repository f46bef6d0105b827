/** The usage-error classifier of src/errors.js. A usage error makes the
    command print its help text besides the message. */
module Errors {

  import opened JsValues

  /** `isUsageError`: anything not derived from the SDK's BaseError, and the
      two invalid-input error classes. */
  predicate IsUsageError(err: JsValue) {
    !InstanceOf(err, SdkBaseError)
      || InstanceOf(err, SdkInvalidInputError)
      || InstanceOf(err, LocalInvalidInputError)
  }

  /** The classification spelled out case by case. */
  lemma UsageErrorCases(err: JsValue)
    ensures !InstanceOf(err, SdkBaseError) ==> IsUsageError(err)
    ensures InstanceOf(err, SdkInvalidInputError) ==> IsUsageError(err)
    ensures InstanceOf(err, LocalInvalidInputError) ==> IsUsageError(err)
    ensures IsNullish(err) || !err.Obj? ==> IsUsageError(err)
    ensures (InstanceOf(err, SdkBaseError) && !InstanceOf(err, SdkInvalidInputError)
             && !InstanceOf(err, LocalInvalidInputError)) ==> !IsUsageError(err)
  {
  }

  /** An operational SDK failure (a BaseError that is not an invalid-input
      error) is not a usage error, while the SDK's own invalid-input error is. */
  lemma SdkErrorsExamples()
    ensures !IsUsageError(Obj(map[], map[], {ObjectClass, ErrorClass, SdkBaseError}))
    ensures IsUsageError(Obj(map[], map[], {ObjectClass, ErrorClass, SdkBaseError, SdkInvalidInputError}))
    ensures IsUsageError(Null) && IsUsageError(Undefined)
  {
  }
}
