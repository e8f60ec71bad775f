/**
 * src/Result.php as it is written, as opposed to its doc-comments (module
 * Results). Kept apart from the documented model and used only to exhibit
 * where the code departs from what it promises:
 *
 *  - `err` builds its instance with the success constructor, so the error
 *    lands in `$value` and the instance is indistinguishable from `ok`;
 *  - `$error` is a typed property that nothing ever assigns (the private
 *    `__constructError` is never called), and PHP throws an Error when an
 *    unassigned typed property is read, so `isError()` and hence `unwrap()`
 *    throw on every instance;
 *  - the case is inferred from nullness, so `ok()` and `ok(null)` are not
 *    reported as successes.
 *
 * The generic types exist only in docblock annotations, which PHP never
 * reads: one payload type `X` stands for whatever is stored, value and error
 * alike.
 */
module PhpResult {
  import Results

  /** A PHP `mixed` value: null, or some non-null payload. */
  datatype Mixed<X> = Null | NonNull(payload: X)

  /** A typed property of an instance: never assigned, or holding a value. */
  datatype Property<X> = Uninitialized | Assigned(content: Mixed<X>)

  /** What a PHP call can throw here. */
  datatype Throwable =
    | RuntimeException(message: string)
      /** PHP's Error for reading a typed property before it is assigned. */
    | UninitializedPropertyError(property: string)

  /** A PHP call either returns or throws. */
  datatype Call<R> = Returns(result: R) | Throws(thrown: Throwable)

  /** The two private properties `$value` and `$error` of an instance. */
  datatype Instance<X> = Instance(value: Property<X>, error: Property<X>)

  /** Reading a typed property: its content, or an Error when unassigned. */
  function Read<X>(p: Property<X>, name: string): Call<Mixed<X>> {
    match p
    case Uninitialized => Throws(UninitializedPropertyError(name))
    case Assigned(m) => Returns(m)
  }

  /** The private `__construct($value = null)`: assigns `$value` only. */
  function Construct<X>(v: Mixed<X>): Instance<X> {
    Instance(Assigned(v), Uninitialized)
  }

  /** `Result::ok($value = null)` as written. */
  function Ok<X>(v: Mixed<X>): Instance<X> {
    Construct(v)
  }

  /** `Result::err($error)` as written: the success constructor again. */
  function Err<X>(e: Mixed<X>): Instance<X> {
    Construct(e)
  }

  /** `isSuccess()` as written: `$value !== null`. */
  function IsSuccess<X>(o: Instance<X>): Call<bool> {
    match Read(o.value, "value")
    case Throws(t) => Throws(t)
    case Returns(m) => Returns(m.NonNull?)
  }

  /** `isError()` as written: `$error !== null`. */
  function IsError<X>(o: Instance<X>): Call<bool> {
    match Read(o.error, "error")
    case Throws(t) => Throws(t)
    case Returns(m) => Returns(m.NonNull?)
  }

  /** `unwrap()` as written: consults `isError()`, then returns `$value`. */
  function Unwrap<X>(o: Instance<X>): Call<Mixed<X>> {
    match IsError(o)
    case Throws(t) => Throws(t)
    case Returns(isError) =>
      if isError then Throws(RuntimeException(Results.Misuse.UnwrapOnError.Message()))
      else Read(o.value, "value")
  }

  /** `unwrapError()` as written: consults `isSuccess()`, then returns `$error`. */
  function UnwrapError<X>(o: Instance<X>): Call<Mixed<X>> {
    match IsSuccess(o)
    case Throws(t) => Throws(t)
    case Returns(isSuccess) =>
      if isSuccess then Throws(RuntimeException(Results.Misuse.UnwrapErrorOnSuccess.Message()))
      else Read(o.error, "error")
  }

  /** `err(e)` and `ok(e)` build the same instance, so no reading of an
      instance can tell a failure from a success; with a non-null `e`,
      `err(e)->isSuccess()` is true. */
  lemma ErrIsIndistinguishableFromOk<X>(e: Mixed<X>, classify: Instance<X> -> bool)
    ensures Err(e) == Ok(e)
    ensures classify(Err(e)) == classify(Ok(e))
    ensures e.NonNull? ==> IsSuccess(Err(e)) == Returns(true)
  {
  }

  /** `isError()` throws on every instance either factory builds. */
  lemma IsErrorAlwaysThrows<X>(v: Mixed<X>)
    ensures IsError(Ok(v)) == Throws(UninitializedPropertyError("error"))
    ensures IsError(Err(v)) == Throws(UninitializedPropertyError("error"))
  {
  }

  /** `unwrap()` never returns: `ok(v)->unwrap()` throws instead of giving
      back `v`. */
  lemma UnwrapNeverReturns<X>(v: Mixed<X>)
    ensures Unwrap(Ok(v)) == Throws(UninitializedPropertyError("error"))
    ensures Unwrap(Err(v)) == Throws(UninitializedPropertyError("error"))
  {
  }

  /** `ok()` (and `ok(null)`) is not reported as a success. */
  lemma VoidOkIsNotSuccess<X>()
    ensures IsSuccess(Ok<X>(Null)) == Returns(false)
  {
  }

  /** `unwrapError()` never returns the error it was built with: a non-null
      error is taken for a success, and a null one reads the unassigned
      `$error`. */
  lemma UnwrapErrorNeverReturns<X>(e: Mixed<X>)
    ensures e.NonNull? ==>
      UnwrapError(Err(e)) == Throws(RuntimeException(Results.Misuse.UnwrapErrorOnSuccess.Message()))
    ensures e.Null? ==>
      UnwrapError(Err(e)) == Throws(UninitializedPropertyError("error"))
  {
  }

  /** For every payload, the code as written and the documented container
      disagree: the documented `ok(v)->unwrap()` returns `v`, the written one
      throws; the documented `err(e)->unwrapError()` returns `e`, the written
      one throws. */
  lemma WrittenDisagreesWithDocumented<X>(v: Mixed<X>)
    ensures Results.Ok<Mixed<X>, Mixed<X>>(v).Unwrap() == Results.Returned(v)
    ensures Unwrap(Ok(v)).Throws?
    ensures Results.Err<Mixed<X>, Mixed<X>>(v).UnwrapError() == Results.Returned(v)
    ensures UnwrapError(Err(v)).Throws?
  {
  }
}
