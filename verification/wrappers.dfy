/** Option and Result values, the error values the modelled code sees and
    returns, and a pair type mirroring Go's `(value, error)` returns. */
module Wrappers {

  datatype Option<+T> = None | Some(value: T)

  datatype Result<+R, +E> = Success(value: R) | Failure(error: E)

  /** A Go `error`. The document store's driver reports two kinds that the
      data-access layer tests for (`mongo.IsDuplicateKeyError` and
      `errors.Is(err, mongo.ErrNoDocuments)`); everything else is opaque. */
  datatype Error =
    | DuplicateKey(message: string)
    | NoDocuments
    | Other(message: string)
  {
    /** The text `err.Error()` gives. */
    function Text(): string
    {
      match this
      case DuplicateKey(m) => m
      case NoDocuments => "mongo: no documents in result"
      case Other(m) => m
    }
  }

  /** A Go two-value return `(value, err)`; `err` is `None` for a nil error. */
  datatype Return<+A> = Return(value: A, err: Option<Error>)
}
