/** How a provider failure is classified. The regular expressions are reduced to their verdicts. */
module EmbeddingErrors {
  import opened Wrappers

  datatype ProviderError = ProviderError(
    status: Option<int>,
    oversizedWords: bool,   // "context length", "too many tokens", ...
    sizeWords: bool,        // "token", "context" or "length" anywhere
    authWords: bool,        // "unauthorized", "invalid api key", ...
    transientWords: bool)   // "timed out", "overloaded", "model is loading", ...

  const TransientStatuses: set<int> := {408, 425, 429, 500, 502, 503, 504}
  const NonRetryableStatuses: set<int> := {400, 401, 403, 404, 422}

  predicate IsOversized(e: ProviderError) {
    e.oversizedWords || (e.status == Some(400) && e.sizeWords)
  }

  predicate IsNonRetryable(e: ProviderError) {
    if IsOversized(e) then true
    else if e.authWords then true
    else if e.status.Some? && e.status.value in NonRetryableStatuses then
      !(e.status.value == 400 && e.transientWords)
    else false
  }

  predicate IsTransient(e: ProviderError) {
    if IsOversized(e) || IsNonRetryable(e) then false
    else (e.status.Some? && e.status.value in TransientStatuses) || e.transientWords
  }

  /** The verdicts of the three classifiers, taken together. */
  datatype Class = Oversized | Rejected | Transient | Unknown

  function Classify(e: ProviderError): (c: Class)
    ensures IsOversized(e) <==> c == Oversized
    ensures IsNonRetryable(e) <==> c in {Oversized, Rejected}
    ensures IsTransient(e) <==> c == Transient
  {
    if IsOversized(e) then Oversized
    else if IsNonRetryable(e) then Rejected
    else if IsTransient(e) then Transient
    else Unknown
  }
}
