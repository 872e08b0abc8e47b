/**
 * Endpoint normalisation done by the XAPI constructor: the stored endpoint is
 * the supplied one with the literal suffix "/statements" appended, unless the
 * supplied string already ends with it (index.js:9-11).
 */
module Endpoint {

  /** The resource every statement request goes to. */
  const Suffix: string := "/statements"

  /** `s.endsWith(suffix)` for JavaScript strings. */
  predicate EndsWith(s: string, suffix: string) {
    |suffix| <= |s| && s[|s| - |suffix|..] == suffix
  }

  /** The endpoint the client stores for a supplied endpoint string. */
  function Normalize(endpoint: string): (r: string)
    ensures EndsWith(r, Suffix)
    ensures |endpoint| <= |r| && r[..|endpoint|] == endpoint
    ensures r == endpoint <==> EndsWith(endpoint, Suffix)
    ensures r != endpoint ==> r == endpoint + Suffix
  {
    if EndsWith(endpoint, Suffix) then endpoint else endpoint + Suffix
  }

  /** Normalising an already normalised endpoint changes nothing. */
  lemma NormalizeIdempotent(endpoint: string)
    ensures Normalize(Normalize(endpoint)) == Normalize(endpoint)
  {
  }

  /** The suffix is appended at most once: the stored endpoint ends with the
      suffix twice over exactly when the supplied one already did. */
  lemma NormalizeAppendsAtMostOnce(endpoint: string)
    ensures EndsWith(Normalize(endpoint), Suffix + Suffix) <==> EndsWith(endpoint, Suffix + Suffix)
  {
  }

  /** The endpoint the test suite configures gets the suffix; an endpoint that
      already carries it is stored as given. */
  lemma NormalizeExamples()
    ensures Normalize("https://example.com/xapi") == "https://example.com/xapi/statements"
    ensures Normalize("https://example.com/xapi/statements") == "https://example.com/xapi/statements"
  {
  }
}
