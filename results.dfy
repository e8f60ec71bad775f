/**
 * The `Result<TValue, TError>` container of src/Result.php, as its doc-comments
 * describe it: the outcome of an operation that either succeeded with a value
 * or failed with an error.
 *
 * The case is an explicit tag (the datatype constructor) fixed when the value
 * is built; it is never inferred from whether a payload is null. The PHP class
 * infers it from nullness and, as written, builds every instance through the
 * success constructor; module PhpResult models that code as written and
 * exhibits where it departs from what is modelled here.
 */
module Results {

  /** The two ways of misusing an extractor; each is documented to raise a
      RuntimeException with a fixed message. */
  datatype Misuse = UnwrapOnError | UnwrapErrorOnSuccess {

    /** The diagnostic text carried by the exception. */
    function Message(): string {
      match this
      case UnwrapOnError => "Called unwrap() on a Result that represents an error."
      case UnwrapErrorOnSuccess => "Called unwrapError() on a Result that represents success."
    }

    /** The extractor that was misused. */
    function Extractor(): string {
      match this
      case UnwrapOnError => "unwrap()"
      case UnwrapErrorOnSuccess => "unwrapError()"
    }

    /** The case the extractor was called on. */
    function Case(): string {
      match this
      case UnwrapOnError => "an error"
      case UnwrapErrorOnSuccess => "success"
    }
  }

  /** What an extractor does: return a payload, or fail with a misuse
      condition and return nothing. */
  datatype Outcome<+R> = Returned(value: R) | Failed(misuse: Misuse)

  /** Exactly one of the two cases, chosen at construction and never changed. */
  datatype Result<+T, +E> = Success(value: T) | Failure(error: E) {

    /** `isError()`: the Result represents an error. Read from the tag,
        never from the payload. */
    function IsError(): bool {
      Failure?
    }

    /** `isSuccess()`: the Result represents success. A Result "can either
        succeed or produce an error": exactly one of the two predicates
        holds. */
    function IsSuccess(): (b: bool)
      ensures b != IsError()
    {
      Success?
    }

    /** `unwrap()`: the value of a success; on an error it fails with
        UnwrapOnError and returns no value. */
    function Unwrap(): (o: Outcome<T>)
      ensures o.Returned? <==> IsSuccess()
      ensures IsSuccess() ==> o.value == value
      ensures IsError() ==> o.misuse == UnwrapOnError
    {
      match this
      case Success(v) => Returned(v)
      case Failure(_) => Failed(UnwrapOnError)
    }

    /** `unwrapError()`: the error of a failure; on a success it fails with
        UnwrapErrorOnSuccess and returns no value. */
    function UnwrapError(): (o: Outcome<E>)
      ensures o.Returned? <==> IsError()
      ensures IsError() ==> o.value == error
      ensures IsSuccess() ==> o.misuse == UnwrapErrorOnSuccess
    {
      match this
      case Success(_) => Failed(UnwrapErrorOnSuccess)
      case Failure(e) => Returned(e)
    }
  }

  /** `Result::ok($value)`: a success holding `value`, whatever `value` is
      (a null or empty payload included). */
  function Ok<T, E>(value: T): (r: Result<T, E>)
    ensures r.IsSuccess() && !r.IsError()
    ensures r.value == value
  {
    Success(value)
  }

  /** `Result::ok()` with the argument left out, for `TValue` void: a success
      with no meaningful payload, modelled as the unit value. */
  function OkVoid<E>(): (r: Result<(), E>)
    ensures r.IsSuccess() && !r.IsError()
    ensures r.Unwrap() == Returned(())
  {
    Ok(())
  }

  /** `Result::err($error)`: a failure holding `error`, whatever `error` is. */
  function Err<T, E>(error: E): (r: Result<T, E>)
    ensures r.IsError() && !r.IsSuccess()
    ensures r.error == error
  {
    Failure(error)
  }

  /** Every Result comes from exactly one of the two factories, and the
      factory that built it is the one its predicates report. */
  lemma BuiltByExactlyOneFactory<T, E>(r: Result<T, E>)
    ensures (exists v :: r == Ok(v)) <==> r.IsSuccess()
    ensures (exists e :: r == Err(e)) <==> r.IsError()
    ensures !((exists v :: r == Ok(v)) && (exists e :: r == Err(e)))
  {
    match r
    case Success(v) =>
      assert r == Ok(v);
    case Failure(e) =>
      assert r == Err(e);
  }

  /** Round trip of a success: `ok(v)->unwrap()` is `v`, and
      `ok(v)->unwrapError()` fails with UnwrapErrorOnSuccess. */
  lemma OkRoundTrip<T, E>(v: T)
    ensures Ok<T, E>(v).Unwrap() == Returned(v)
    ensures Ok<T, E>(v).UnwrapError() == Failed(UnwrapErrorOnSuccess)
  {
  }

  /** Round trip of a failure: `err(e)->unwrapError()` is `e`, and
      `err(e)->unwrap()` fails with UnwrapOnError. */
  lemma ErrRoundTrip<T, E>(e: E)
    ensures Err<T, E>(e).UnwrapError() == Returned(e)
    ensures Err<T, E>(e).Unwrap() == Failed(UnwrapOnError)
  {
  }

  /** An extractor returns a value exactly when it is called on the case it
      is meant for; otherwise no value whatsoever is returned. */
  lemma ExtractorsReturnOnlyOnTheirCase<T, E>(r: Result<T, E>)
    ensures (exists v :: r.Unwrap() == Returned(v)) <==> r.IsSuccess()
    ensures (exists e :: r.UnwrapError() == Returned(e)) <==> r.IsError()
  {
  }

  /** Helper of MessagesNameTheMisuse: joins the literals of the `unwrap()`
      message. */
  lemma UnwrapOnErrorMessageParts()
    ensures UnwrapOnError.Message()
      == "Called " + "unwrap()" + " on a Result that represents " + "an error" + "."
  {
    assert "Called " + "unwrap()" == "Called unwrap()";
    assert "Called unwrap()" + " on a Result that represents "
      == "Called unwrap() on a Result that represents ";
    assert "Called unwrap() on a Result that represents " + "an error" + "."
      == "Called unwrap() on a Result that represents an error.";
  }

  /** Helper of MessagesNameTheMisuse: joins the literals of the
      `unwrapError()` message. */
  lemma UnwrapErrorOnSuccessMessageParts()
    ensures UnwrapErrorOnSuccess.Message()
      == "Called " + "unwrapError()" + " on a Result that represents " + "success" + "."
  {
    assert "Called " + "unwrapError()" == "Called unwrapError()";
    assert "Called unwrapError()" + " on a Result that represents "
      == "Called unwrapError() on a Result that represents ";
    assert "Called unwrapError() on a Result that represents " + "success" + "."
      == "Called unwrapError() on a Result that represents success.";
  }

  /** Each diagnostic message names the extractor that was misused and the
      case it was called on, and the two messages differ. */
  lemma MessagesNameTheMisuse(m: Misuse)
    ensures m.Message() == "Called " + m.Extractor() + " on a Result that represents " + m.Case() + "."
    ensures m.Message() != (if m == UnwrapOnError then UnwrapErrorOnSuccess else UnwrapOnError).Message()
  {
    UnwrapOnErrorMessageParts();
    UnwrapErrorOnSuccessMessageParts();
    assert UnwrapOnError.Message()[13] != UnwrapErrorOnSuccess.Message()[13];
  }
}
