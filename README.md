# Result — a Dafny model

This project models the generic `Result<TValue, TError>` container of the
PHP library Wulfheart/result. A Result stands for the outcome of an
operation. It is either a success carrying a value or a failure carrying an
error. Callers build one with the factories `ok` and `err`, ask which case
holds with `isSuccess` and `isError`, and take the payload out with `unwrap`
and `unwrapError`. Each extractor is documented to throw a `RuntimeException`
with a fixed message when it is called on the wrong case.

There are two modules:

- `Results` (results.dfy) is the container as its doc-comments describe it.
  It is an immutable datatype `Result<T, E> = Success(value) | Failure(error)`.
  The case is an explicit tag fixed at construction, and the two payload
  types stay fully generic. The extractors are total functions. Each returns
  an `Outcome`: either `Returned(payload)` or `Failed(misuse)`. The misuse is
  `UnwrapOnError` or `UnwrapErrorOnSuccess`, and `Misuse.Message` gives the
  exception's fixed text. So a misuse is a result the model can reason
  about, not a precondition. `isError` is the tag read; its contract is
  stated by `IsSuccess` (exactly one of the two holds) and by the lemmas.
- `PhpResult` (php_result.dfy) is the PHP code as written. It exists only to
  show where that code departs from its own documentation (see
  "## Findings"). A PHP instance holds two typed properties. `$value` is
  assigned by the private constructor. `$error` is never assigned. Reading
  an unassigned typed property throws PHP's `Error`. The case is inferred
  from whether a property is null. Both payloads are modelled as
  `Mixed<X> = Null | NonNull(payload)`, because the generic types exist only
  in docblock annotations, which PHP never reads.

The rest of the model uses `Results`. The source's doc-comments are followed
wherever the code disagrees with them.

## Model

| member | source | states |
|---|---|---|
| `Results.Ok` | src/Result.php:45-55 | `ok(v)` is a success and not an error, and it holds exactly `v`, for any `v` (a null or empty one included) |
| `Results.OkVoid` | src/Result.php:49-55 | `ok()` with no argument (`TValue` void) is a success, not an error, and its `unwrap()` returns instead of failing |
| `Results.Err` | src/Result.php:57-67 | `err(e)` is an error and not a success, and it holds exactly `e`, for any `e` |
| `Results.Result.IsSuccess` | src/Result.php:69-87 | `isSuccess()` and `isError()` are complements: every Result either succeeds or produces an error, never both and never neither |
| `Results.Result.Unwrap` | src/Result.php:89-103 | `unwrap()` returns a value exactly when the Result is a success, and that value is the stored one; on an error it fails with `UnwrapOnError` |
| `Results.Result.UnwrapError` | src/Result.php:105-119 | `unwrapError()` returns exactly when the Result is an error, and it returns the stored error; on a success it fails with `UnwrapErrorOnSuccess` |
| `Results.BuiltByExactlyOneFactory` | src/Result.php:7-8 | every Result is `ok(v)` for some `v` exactly when `isSuccess()` holds, and `err(e)` for some `e` exactly when `isError()` holds; no Result comes from both factories |
| `Results.OkRoundTrip` | src/Result.php:89-119 | `ok(v)->unwrap()` is `v`, and `ok(v)->unwrapError()` fails with `UnwrapErrorOnSuccess` |
| `Results.ErrRoundTrip` | src/Result.php:89-119 | `err(e)->unwrapError()` is `e`, and `err(e)->unwrap()` fails with `UnwrapOnError` |
| `Results.ExtractorsReturnOnlyOnTheirCase` | src/Result.php:89-119 | no value whatsoever comes out of `unwrap()` on an error, nor out of `unwrapError()` on a success |
| `Results.MessagesNameTheMisuse` | src/Result.php:98-116 | each exception message names the extractor that was misused and the case it was called on, and the two messages differ |
| `PhpResult.ErrIsIndistinguishableFromOk` | src/Result.php:52-67 | as written, `err(e)` builds the same instance as `ok(e)`, so no reading can tell them apart, and `err(e)->isSuccess()` is true for a non-null `e` |
| `PhpResult.IsErrorAlwaysThrows` | src/Result.php:84-87 | as written, `isError()` throws the uninitialised-property Error on every instance either factory builds |
| `PhpResult.UnwrapNeverReturns` | src/Result.php:96-103 | as written, `unwrap()` throws on every instance either factory builds, `ok(v)` included |
| `PhpResult.VoidOkIsNotSuccess` | src/Result.php:74-77 | as written, `ok()` and `ok(null)` report `isSuccess()` false |
| `PhpResult.UnwrapErrorNeverReturns` | src/Result.php:112-119 | as written, `err(e)->unwrapError()` throws: the success exception for a non-null `e`, the uninitialised-property Error for a null one |
| `PhpResult.WrittenDisagreesWithDocumented` | src/Result.php:89-119 | for every payload, the documented `ok(v)->unwrap()` and `err(e)->unwrapError()` return the payload, and the written ones throw |

The as-written functions of `PhpResult` have no contracts of their own:
`Read` (a typed-property read, src/Result.php:15-23), `Construct` (the
private constructor, src/Result.php:25-33), `Ok`, `Err`, `IsSuccess`,
`IsError`, `Unwrap` and `UnwrapError`. Each is the PHP code as written, and
the `PhpResult` lemmas in the table state what they do.

`Results.UnwrapOnErrorMessageParts` and
`Results.UnwrapErrorOnSuccessMessageParts` are helpers of
`Results.MessagesNameTheMisuse`. They only join the string literals of
each message, so they have no rows of their own.

## Findings

| source | as written | input that shows it | evidently intended | confidence | as-written member | corrected member |
|---|---|---|---|---|---|---|
| src/Result.php:64-67 | `err` calls the success constructor, so the error is stored in `$value` | `Result::err("not found")->isSuccess()` returns true | `err(e)` builds a failure holding `e` | high, not executed | `PhpResult.ErrIsIndistinguishableFromOk` | `Results.Err` |
| src/Result.php:84-87 | `$error` is a typed `mixed` property that is never assigned, so reading it throws PHP's Error | `Result::ok(42)->isError()` throws instead of returning false | `isError()` reports the case without throwing | high, not executed | `PhpResult.IsErrorAlwaysThrows` | `Results.Result.IsSuccess` |
| src/Result.php:96-103 | `unwrap()` calls `isError()` first, so it throws on every instance | `Result::ok(42)->unwrap()` throws instead of returning 42 | `ok(v)->unwrap()` returns `v` | high, not executed | `PhpResult.UnwrapNeverReturns` | `Results.OkRoundTrip` |
| src/Result.php:74-77 | `isSuccess()` tests `$value !== null`, so a null payload looks like no success | `Result::ok()->isSuccess()` returns false | `ok()` and `ok(null)` are successes | high, not executed | `PhpResult.VoidOkIsNotSuccess` | `Results.OkVoid` |
| src/Result.php:112-119 | `unwrapError()` on an `err` instance either sees a "success" or reads the unassigned `$error` | `Result::err("not found")->unwrapError()` throws a RuntimeException saying the Result represents success | `err(e)->unwrapError()` returns `e` | high, not executed | `PhpResult.UnwrapErrorNeverReturns` | `Results.ErrRoundTrip` |

## Left out

- src/Dir/Operation.php is not part of this model. It is a demo caller that only returns `Result::ok()`. That call is modelled by `Results.OkVoid`. The file also imports a class `Wulfheart\Result\Error` that neither src/Result.php nor src/Dir/Operation.php defines.
- The private `__constructError` (src/Result.php:40-43) is not modelled as an operation, because nothing calls it. `PhpResult.Construct` leaves `$error` unassigned, which is the same as never calling `__constructError`.
- The exception classes themselves are not modelled. Throwing is modelled as a `Failed`/`Throws` value carrying the misuse tag or the message. The model does not cover how a thrown exception unwinds the PHP stack.
- The Psalm/PHPStan `@template` annotations are not modelled beyond keeping both type parameters of `Results.Result` fully generic. PHP does not enforce them at run time.
