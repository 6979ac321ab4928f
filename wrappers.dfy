/** Failure-carrying results shared by every module.  Python exceptions of the
    exporter are modelled as values of `Exception`; an operation that may raise
    returns a `Result`. */
module Wrappers {

  datatype Option<+T> = None | Some(value: T)

  /** The Python exception classes the exporter raises or lets escape. */
  datatype Exception =
    | KeyError(key: string)
    | TypeError
    | IndexError
    | ValueError
    | AttributeError
    | JsonDecodeError
    | MetadataParseException
    | SchemaParseException
    | ExperimentMessageParseException
    | UploadPollingException
    | PreconditionFailed
    | RetryError
    | HttpError(status: int)
    | FileTransferAlreadyExists
    | FileTransferCouldNotStart
    | TransferOperationsParseError
    | SubmissionDoesNotHaveRequiredAction
    | SpreadsheetExportError
    /** an exception raised inside a collaborator this model keeps abstract */
    | CollaboratorFailure

  datatype Result<+T> = Ok(value: T) | Err(error: Exception) {
    predicate IsFailure() { Err? }

    function PropagateFailure<U>(): Result<U>
      requires Err?
    {
      Err(error)
    }

    function Extract(): T
      requires Ok?
    {
      value
    }
  }

  /** `except (KeyError, TypeError) as e: raise Other(e)`: the two lookup
      errors become `other`, every other error passes through unchanged. */
  function ConvertLookupError<T>(r: Result<T>, other: Exception): (c: Result<T>)
    ensures r.Ok? ==> c == r
    ensures r.Err? && (r.error.KeyError? || r.error == TypeError) ==> c == Err(other)
    ensures r.Err? && !(r.error.KeyError? || r.error == TypeError) ==> c == r
  {
    if r.Err? && (r.error.KeyError? || r.error == TypeError) then Err(other) else r
  }

  /** A successful result without a value is `Ok(())`. */
  lemma OkUnit(r: Result<()>)
    requires r.Ok?
    ensures r == Ok(())
  {
    match r.value { case () => }
  }
}
