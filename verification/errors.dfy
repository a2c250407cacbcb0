/** Translation of a failed upstream call into the service's error reply. */
module Errors {
  import opened Wrappers

  /** The part of a failed upstream HTTP call the service reads: the status
      (None when undefined or null) and the status text. */
  datatype UpstreamFailure = UpstreamFailure(status: Option<int>, statusText: string)

  /** The service's error reply: the message for the body, the code for the HTTP status. */
  datatype ErrorInfo = ErrorInfo(message: string, code: int)

  /** The lowest status that counts as an HTTP error. */
  const MinErrorCode := 400
  /** The status used when the upstream gave none, or gave a non-error one. */
  const DefaultErrorCode := 500

  /** The message is the upstream status text unchanged; the code is the
      upstream status when that is an error status, and 500 otherwise. */
  function PrepareRESTErrorMessage(failure: UpstreamFailure): (e: ErrorInfo)
    ensures e.message == failure.statusText
    ensures e.code >= MinErrorCode
    ensures failure.status.Some? && failure.status.value >= MinErrorCode ==> e.code == failure.status.value
    ensures failure.status.None? || failure.status.value < MinErrorCode ==> e.code == DefaultErrorCode
  {
    var code := failure.status;
    ErrorInfo(failure.statusText,
              if code.None? || code.value < MinErrorCode then DefaultErrorCode else code.value)
  }

  /** The upstream status reaches the caller exactly when it is an error status. */
  lemma StatusPreservedIff(status: int, statusText: string)
    ensures PrepareRESTErrorMessage(UpstreamFailure(Some(status), statusText)).code == status
        <==> status >= MinErrorCode
  {
  }

  /** Mapping is idempotent: feeding an error reply back in as an upstream
      failure gives the same reply. */
  lemma ErrorMappingIdempotent(failure: UpstreamFailure)
    ensures var e := PrepareRESTErrorMessage(failure);
      PrepareRESTErrorMessage(UpstreamFailure(Some(e.code), e.message)) == e
  {
  }
}
