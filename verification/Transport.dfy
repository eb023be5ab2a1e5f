/** How a failed request is classified, and the decisions taken on the class alone. */
module Transport {

  datatype Kind = Internal | Usage | Config | Auth | Network | Server | Rejected | VersionSkew

  /** Why a request failed below HTTP, where a decision depends on it. */
  datatype Cause = Plain | DeadlineExceeded | Canceled | PinMismatch | BadCertificate

  /** `status` is the answer's HTTP status, or 0 when there was no answer. */
  datatype Failure = Failure(kind: Kind, status: nat, fatal: bool, cause: Cause)

  const CONFLICT := 409

  /** The class of a non-2xx answer. `sendRoute`: the one route with a per-resource 404. */
  function StatusError(status: nat, sendRoute: bool, retryAfterPresent: bool): Failure {
    var kind :=
      if status == 401 || status == 403 then Auth
      else if status == 404 then (if sendRoute then Rejected else VersionSkew)
      else if status == CONFLICT || status == 501 then Rejected
      else if status == 429 || status >= 500 then Server
      else if status >= 400 then Rejected
      else Server;
    Failure(kind, status, status == 503 && !retryAfterPresent, Plain)
  }

  predicate IsRetryable(f: Failure) {
    && f.cause == Plain
    && !f.fatal
    && (f.kind == Network || (f.kind == Server && (f.status == 429 || f.status == 503 || f.status == 0)))
  }

  predicate WatchShouldRetry(f: Failure) {
    !f.fatal && (f.kind == Network || f.kind == Server)
  }

  /** The two families after which a request may or may not have been applied. */
  predicate Ambiguous(f: Failure) { f.kind == Network || f.kind == Server }

  /**
   What each answer leads to, by its status alone: the transport sends the same copy again
   only when the bus is short of capacity and says so; only 401 and 403 call for a new
   session; the watch goes on after any fault of the bus that is not declared permanent.
   */
  lemma StatusDecides(status: nat, sendRoute: bool, retryAfterPresent: bool)
    requires status != 0
    ensures var f := StatusError(status, sendRoute, retryAfterPresent);
            && f.status == status && f.cause == Plain
            && (IsRetryable(f) <==> status == 429 || (status == 503 && retryAfterPresent))
            && (f.kind == Auth <==> status in {401, 403})
            && (Ambiguous(f) <==> status < 400 || status == 429 || (status >= 500 && status != 501))
            && (WatchShouldRetry(f) <==> Ambiguous(f) && (status == 503 ==> retryAfterPresent))
            && (f.kind == VersionSkew <==> status == 404 && !sendRoute)
            && (f.fatal <==> status == 503 && !retryAfterPresent)
            && f.kind in {Auth, Rejected, VersionSkew, Server}
  {
  }

  /** No answer the bus gives on the merits of a request is ever repeated by the transport. */
  lemma RefusalsAreNotRetried(status: nat, sendRoute: bool, retryAfterPresent: bool)
    requires 400 <= status < 500 && status != 429
    ensures !IsRetryable(StatusError(status, sendRoute, retryAfterPresent))
    ensures !Ambiguous(StatusError(status, sendRoute, retryAfterPresent))
    ensures !WatchShouldRetry(StatusError(status, sendRoute, retryAfterPresent))
  {
  }
}
