/**
 * How both clients read a decoded response body: an `errorCode` member means
 * the service refused the operation, and the client throws an exception of
 * the kind the operation names, carrying the body's message and code.
 */
module Responses {
  import opened Wrappers
  import opened PhpValues

  /** KeyNotFoundException, KeyExistsException and the generic EtcdException. */
  datatype ErrorKind = KeyNotFound | KeyExists | Generic

  datatype EtcdError = EtcdError(kind: ErrorKind, message: Json, code: Json)

  /** isset($body['errorCode']). */
  predicate HasError(body: Json) {
    Isset(body, "errorCode")
  }

  /** The exception thrown for a body that reports an error. */
  function ErrorOf(kind: ErrorKind, body: Json): EtcdError {
    EtcdError(kind, Lookup(body, "message"), Lookup(body, "errorCode"))
  }

  /**
   * A result fails exactly when the body has an error code, and then with the
   * given kind and the body's message and code.
   */
  predicate RaisedOn<T>(result: Result<T, EtcdError>, kind: ErrorKind, body: Json) {
    && (result.Failure? <==> HasError(body))
    && (result.Failure? ==> result.error == ErrorOf(kind, body))
  }

  /** `if (isset($body['errorCode'])) throw new Kind(...); return $body;` */
  function Raise(kind: ErrorKind, body: Json): (r: Result<Json, EtcdError>)
    ensures RaisedOn(r, kind, body)
    ensures r.Success? ==> r.value == body
  {
    if HasError(body) then Failure(ErrorOf(kind, body)) else Success(body)
  }
}
