/**
  Go-style error values shared by the whole model.

  The repository returns `error` values built three ways: package-level
  sentinels (`errors.New` in internal/storage), errors reported by the
  database driver or the cache client, and `fmt.Errorf("...: %w", err)`
  wrappers. `Is` is `errors.Is`: it follows the `%w` chain.
 */
module Errors {

  datatype Option<T> = None | Some(value: T)

  /** The sentinel error values declared in internal/storage. */
  datatype SentinelKind =
    | CategoryNotFound
    | HasRelatedRows
    | CreateCategory
    | CreateComplaint
    | LimitOneComplaintInOneHour
    | ComplaintNotFound
    | DBConnection
    | ScanFailure

  /** Failures reported by a collaborator the model keeps abstract. */
  datatype Fault =
    | NoRows               // sql.ErrNoRows: a single-row query found nothing
    | UniqueViolation      // a UNIQUE constraint rejected an insert
    | ForeignKeyViolation  // a FOREIGN KEY constraint rejected a write
    | ConnectionFailure    // the database or the cache could not be reached
    | CacheMiss            // redis.Nil: the key is not set

  /**
    Errors compare by value here. Go compares `errors.New` values by
    identity, so `Is(e, Plain(m))` is only the model's way of naming which
    unexported error a branch returned: no Go caller can build a `Plain`
    target that matches. Sentinels are package-level values, and for them
    the two comparisons agree.
   */
  datatype Error =
    | Sentinel(kind: SentinelKind)
    | Driver(fault: Fault)
    | Plain(msg: string)                 // errors.New(msg), or fmt.Errorf without %w
    | Wrapped(msg: string, inner: Error) // fmt.Errorf(msg + ": %w", inner)

  datatype Result<T> = Ok(value: T) | Err(error: Error)

  /** errors.Is: does `target` occur on the unwrap chain of `err`? */
  function Is(err: Error, target: Error): bool
  {
    err == target || (err.Wrapped? && Is(err.inner, target))
  }

  /** The innermost error of a wrap chain. */
  function Root(err: Error): Error
  {
    if err.Wrapped? then Root(err.inner) else err
  }

  /** Wraps `err` once per prefix, the last prefix outermost. */
  function WrapAll(prefixes: seq<string>, err: Error): Error
  {
    if prefixes == [] then err
    else Wrapped(prefixes[|prefixes| - 1], WrapAll(prefixes[..|prefixes| - 1], err))
  }

  /** A sentinel (or any unwrapped error) is found by errors.Is exactly when it is the root of the chain. */
  lemma {:induction false} IsUnwrappedIffRoot(err: Error, target: Error)
    requires !target.Wrapped?
    ensures Is(err, target) <==> Root(err) == target
  {
    if err.Wrapped? {
      IsUnwrappedIffRoot(err.inner, target);
    }
  }

  /** Any number of `%w` wraps keep errors.Is matching a sentinel. */
  lemma {:induction false} IsSurvivesWrapping(prefixes: seq<string>, err: Error, target: Error)
    requires !target.Wrapped?
    ensures Is(WrapAll(prefixes, err), target) <==> Is(err, target)
  {
    if prefixes != [] {
      IsSurvivesWrapping(prefixes[..|prefixes| - 1], err, target);
    }
  }
}
