/** The conditional-request check and the Vary membership test of
    middleware/utils.py (`parse_http_date`, `not_modified`, `has_vary_header`). */
module Validators {
  import opened Wrappers
  import opened Text
  import opened Http

  /** Python truthiness of an optional header value: present and non-empty. */
  predicate Truthy(v: Option<string>)
  {
    v.Some? && v.value != ""
  }

  /** Python 2's `parse_http_date(server) <= parse_http_date(client)`: two datetimes
      compare in time order; `None <= None` holds; a datetime compared with `None`
      raises TypeError. */
  function DateLessEq(server: Option<int>, client: Option<int>): (r: Outcome<bool>)
    ensures r.Raised? <==> server.Some? != client.Some?
  {
    if server.Some? && client.Some? then Done(server.value <= client.value)
    else if server.None? && client.None? then Done(true)
    else Raised(DateCompareError)
  }

  /** The client's If-Modified-Since value with any `;` parameters and surrounding
      whitespace removed. */
  function ClientDate(header: string): string
  {
    StripSpace(Split(header, ';')[0])
  }

  /** `not_modified(request, etag, last_modified)`. */
  function NotModified(env: Env, meta: map<string, string>, etag: Option<string>, lastModified: Option<string>)
    : Outcome<bool>
  {
    if IfNoneMatch in meta && Truthy(etag) then
      Done(StripChar(meta[IfNoneMatch], '"') == StripChar(etag.value, '"'))
    else if IfModifiedSince in meta then
      if Truthy(lastModified) then
        var client := ClientDate(meta[IfModifiedSince]);
        if client == lastModified.value then Done(true)
        else DateLessEq(env.parseDate(lastModified.value), env.parseDate(client))
      else Done(false)
    else Done(false)
  }

  /** `has_vary_header(response, query)`: case-insensitive membership of `query`
      among the comma-separated names of the response's Vary header. */
  predicate HasVaryHeader(d: ResponseData, query: string)
  {
    Vary in d.headers && exists n :: n in SplitCommas(d.headers[Vary]) && Lower(n) == Lower(query)
  }

  /** With If-None-Match present and a non-empty ETag, the answer is exactly the
      quote-insensitive equality of the two tags; If-Modified-Since is never read. */
  lemma IfNoneMatchDecides(env: Env, meta: map<string, string>, etag: Option<string>, lm: Option<string>)
    requires IfNoneMatch in meta && Truthy(etag)
    ensures NotModified(env, meta, etag, lm)
         == Done(StripChar(meta[IfNoneMatch], '"') == StripChar(etag.value, '"'))
    ensures NotModified(env, meta, etag, lm) == NotModified(env, meta - {IfModifiedSince}, etag, None)
  {
    assert IfNoneMatch in meta - {IfModifiedSince};
  }

  /** Without validators in the request nothing counts as unmodified. */
  lemma NoValidatorsMeansModified(env: Env, meta: map<string, string>, etag: Option<string>, lm: Option<string>)
    requires IfNoneMatch !in meta && IfModifiedSince !in meta
    ensures NotModified(env, meta, etag, lm) == Done(false)
  {
  }

  /** The If-Modified-Since branch, taken when If-None-Match does not decide. */
  lemma IfModifiedSinceBranch(env: Env, meta: map<string, string>, etag: Option<string>, lm: Option<string>)
    requires !(IfNoneMatch in meta && Truthy(etag)) && IfModifiedSince in meta
    ensures !Truthy(lm) ==> NotModified(env, meta, etag, lm) == Done(false)
    ensures Truthy(lm) && ClientDate(meta[IfModifiedSince]) == lm.value ==>
              NotModified(env, meta, etag, lm) == Done(true)
    ensures Truthy(lm) && ClientDate(meta[IfModifiedSince]) != lm.value ==>
              var s, c := env.parseDate(lm.value), env.parseDate(ClientDate(meta[IfModifiedSince]));
              && (s.Some? && c.Some? ==> NotModified(env, meta, etag, lm) == Done(s.value <= c.value))
              && (s.None? && c.None? ==> NotModified(env, meta, etag, lm) == Done(true))
              && (s.Some? != c.Some? ==> NotModified(env, meta, etag, lm) == Raised(DateCompareError))
  {
  }

  /** The conditional round trip: a stored ETag `"t"` answers an If-None-Match of
      `"s"` or of bare `s` as not modified exactly when `s == t`, for any tags that
      do not themselves begin or end with a quote. */
  lemma ETagRoundTrip(env: Env, meta: map<string, string>, lm: Option<string>, s: string, t: string)
    requires |s| >= 1 && s[0] != '"' && s[|s| - 1] != '"'
    requires |t| >= 1 && t[0] != '"' && t[|t| - 1] != '"'
    ensures NotModified(env, meta[IfNoneMatch := "\"" + s + "\""], Some("\"" + t + "\""), lm) == Done(s == t)
    ensures NotModified(env, meta[IfNoneMatch := s], Some("\"" + t + "\""), lm) == Done(s == t)
  {
    StripCharEnclosed(s, '"');
    StripCharEnclosed(t, '"');
    var etag := Some("\"" + t + "\"");
    assert Truthy(etag);
    IfNoneMatchDecides(env, meta[IfNoneMatch := "\"" + s + "\""], etag, lm);
    IfNoneMatchDecides(env, meta[IfNoneMatch := s], etag, lm);
  }

  /** Vary membership ignores case, and fails without a Vary header. */
  lemma HasVaryHeaderIgnoresCase(d: ResponseData, q1: string, q2: string)
    requires Lower(q1) == Lower(q2)
    ensures HasVaryHeader(d, q1) == HasVaryHeader(d, q2)
    ensures Vary !in d.headers ==> !HasVaryHeader(d, q1)
  {
  }
}
