/** The exception hierarchy of paperless-stamp, the Python built-ins the
    worker names next to it, and the message `str(exc)` each one carries. */
module Errors {
  import opened Outcomes
  import opened Text

  /** Exception classes. `Exception` is Python's root of ordinary
      exceptions; `Runtime` and `NotImplemented` are the built-ins
      `RuntimeError` and its subclass `NotImplementedError`. */
  datatype Class =
    | Exception
    | PaperlessStamp
    | PaperlessAPI
    | PaperlessConnection
    | PaperlessAuth
    | Stamp
    | StampGeneration
    | StampMerge
    | Runtime
    | NotImplemented

  /** The direct base class of each class. */
  function Parent(c: Class): Option<Class>
  {
    match c
    case Exception => None
    case PaperlessStamp => Some(Exception)
    case PaperlessAPI => Some(PaperlessStamp)
    case PaperlessConnection => Some(PaperlessStamp)
    case PaperlessAuth => Some(PaperlessStamp)
    case Stamp => Some(PaperlessStamp)
    case StampGeneration => Some(Stamp)
    case StampMerge => Some(Stamp)
    case Runtime => Some(Exception)
    case NotImplemented => Some(Runtime)
  }

  /** Distance from the root; strictly decreases towards the parent. */
  function Depth(c: Class): (d: nat)
  {
    match c
    case Exception => 0
    case PaperlessStamp => 1
    case Runtime => 1
    case Stamp => 2
    case PaperlessAPI => 2
    case PaperlessConnection => 2
    case PaperlessAuth => 2
    case NotImplemented => 2
    case StampGeneration => 3
    case StampMerge => 3
  }

  /** `issubclass(c, base)`: `base` is `c` or one of its ancestors. */
  predicate IsA(c: Class, base: Class)
    decreases Depth(c)
  {
    c == base || (Parent(c).Some? && IsA(Parent(c).value, base))
  }

  /** Classes raised with a plain message. PaperlessAPIError is left out:
      its constructor always builds the message from a status and a detail. */
  type PlainClass = c: Class | c != PaperlessAPI witness Runtime

  /** A raised exception, as a value. */
  datatype Error =
    | ApiError(statusCode: int, detail: string)
    | Raised(cls: PlainClass, message: string)

  function ClassOf(e: Error): Class
  {
    match e
    case ApiError(_, _) => PaperlessAPI
    case Raised(c, _) => c
  }

  function GenerationError(message: string): Error { Raised(StampGeneration, message) }

  function MergeError(message: string): Error { Raised(StampMerge, message) }

  const ApiErrorPrefix := "API error "

  /** The message PaperlessAPIError's constructor builds. */
  function ApiErrorMessage(statusCode: int, detail: string): string
  {
    if detail != "" then ApiErrorPrefix + IntToString(statusCode) + ": " + detail
    else ApiErrorPrefix + IntToString(statusCode)
  }

  /** `str(exc)`. */
  function Message(e: Error): string
  {
    match e
    case ApiError(status, detail) => ApiErrorMessage(status, detail)
    case Raised(_, m) => m
  }

  /** Reads a PaperlessAPIError message back into its status and detail. */
  function ParseApiErrorMessage(m: string): Option<(int, string)>
  {
    if !StartsWith(m, ApiErrorPrefix) then None
    else
      match ParseIntPrefix(m[|ApiErrorPrefix|..])
      case None => None
      case Some((status, rest)) =>
        if rest == "" then Some((status, ""))
        else if StartsWith(rest, ": ") && |rest| > 2 then Some((status, rest[2..]))
        else None
  }

  /** The API error message determines the status code and the detail:
      both are recovered from it exactly, so the status code always
      appears in the message, right after "API error ". */
  lemma ApiErrorMessageRoundTrip(statusCode: int, detail: string)
    ensures ParseApiErrorMessage(ApiErrorMessage(statusCode, detail)) == Some((statusCode, detail))
    ensures StartsWith(ApiErrorMessage(statusCode, detail), ApiErrorPrefix + IntToString(statusCode))
  {
    var m := ApiErrorMessage(statusCode, detail);
    var shown := IntToString(statusCode);
    var tail := if detail != "" then ": " + detail else "";
    assert m == ApiErrorPrefix + (shown + tail);
    assert m[|ApiErrorPrefix|..] == shown + tail;
    IntToStringRoundTrip(statusCode, tail);
    if detail != "" {
      assert tail[2..] == detail;
    }
    assert m[..|ApiErrorPrefix + shown|] == ApiErrorPrefix + shown;
  }

  /** Messages of API errors with different status codes or details differ. */
  lemma ApiErrorMessageInjective(s1: int, d1: string, s2: int, d2: string)
    requires ApiErrorMessage(s1, d1) == ApiErrorMessage(s2, d2)
    ensures s1 == s2 && d1 == d2
  {
    ApiErrorMessageRoundTrip(s1, d1);
    ApiErrorMessageRoundTrip(s2, d2);
  }

  /** `isinstance(e, PaperlessStampError)` */
  predicate IsPaperlessStampError(e: Error)
  {
    IsA(ClassOf(e), PaperlessStamp)
  }

  /** The classes `process_document` turns into error-marking:
      `except (StampError, PaperlessStampError, NotImplementedError)`. */
  predicate IsDocumentScoped(e: Error)
  {
    IsA(ClassOf(e), Stamp) || IsA(ClassOf(e), PaperlessStamp) || IsA(ClassOf(e), NotImplemented)
  }

  /** The subclass relation of exceptions.py: generation and merge errors
      are stamp errors, and stamp, API, connection and auth errors are all
      PaperlessStampError; the two built-ins are not. */
  lemma {:induction false} Hierarchy()
    ensures IsA(StampGeneration, Stamp) && IsA(StampMerge, Stamp)
    ensures IsA(Stamp, PaperlessStamp)
    ensures IsA(PaperlessAPI, PaperlessStamp) && IsA(PaperlessConnection, PaperlessStamp)
    ensures IsA(PaperlessAuth, PaperlessStamp)
    ensures !IsA(Runtime, PaperlessStamp) && !IsA(NotImplemented, PaperlessStamp)
    ensures !IsA(Exception, PaperlessStamp)
  {
    assert !IsA(Exception, PaperlessStamp);
    assert !IsA(Runtime, PaperlessStamp);
  }

  /** Every error of the hierarchy, and NotImplementedError, is handled
      inside `process_document`; exactly RuntimeError and plain Exception
      (standing for every other built-in) escape it. */
  lemma {:induction false} DocumentScopedClasses(e: Error)
    ensures IsDocumentScoped(e) <==> ClassOf(e) !in {Exception, Runtime}
    ensures IsDocumentScoped(e) <==> IsPaperlessStampError(e) || ClassOf(e) == NotImplemented
  {
    Hierarchy();
    assert !IsA(Exception, Stamp) && !IsA(Exception, NotImplemented);
    assert !IsA(Runtime, Stamp) && !IsA(Runtime, NotImplemented);
    assert IsA(NotImplemented, NotImplemented);
    assert !IsA(PaperlessStamp, NotImplemented);
  }
}
