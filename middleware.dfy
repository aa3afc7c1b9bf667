/** The two halves of the page cache in middleware/__init__.py: the response phase
    (`UpdateCacheMiddleware`) learns and stores, the request phase
    (`FetchFromCacheMiddleware`) looks the page up again before the view runs. */
module Middleware {
  import opened Wrappers
  import opened Text
  import opened Http
  import opened CacheKeys
  import opened Validators
  import opened Learning
  import opened Decorators

  /** The settings both middlewares read when they are created:
      `CACHE_MIDDLEWARE_KEY_PREFIX`, `CACHE_MIDDLEWARE_SECONDS` and
      `CACHE_MIDDLEWARE_ANONYMOUS_ONLY`, with the foreign helpers. */
  datatype Config = Config(env: Env, keyPrefix: string, cacheTimeout: int, anonymousOnly: bool)

  // ===========================================================================
  // Response phase

  /** `_should_update_cache(request, response)` for a request whose update flag is
      `flag`. */
  function ShouldUpdateCache(c: Config, flag: Option<bool>, info: RequestInfo, d: ResponseData): (r: Outcome<bool>)
    ensures r.Raised? <==> flag == Some(true) && c.anonymousOnly && HasVaryHeader(d, "Cookie") && info.user.None?
    ensures r == Done(true) <==>
              flag == Some(true) && !(c.anonymousOnly && HasVaryHeader(d, "Cookie") && (info.user.None? || info.user.value.authenticated))
  {
    if flag != Some(true) then Done(false)
    else if c.anonymousOnly && HasVaryHeader(d, "Cookie") then
      if info.user.None? then Raised(ImproperlyConfigured) else Done(!info.user.value.authenticated)
    else Done(true)
  }

  /** The response after the edits `process_response` always makes: Has-ESI when the
      request asks for it, and an empty ETag removed. */
  function Prepared(info: RequestInfo, d: ResponseData): ResponseData
  {
    var e := if info.responseHasEsi then WithTrueHeader(d, HasEsi) else d;
    if ETag in e.headers && e.headers[ETag] == "" then e.(headers := e.headers - {ETag}) else e
  }

  /** Whether `process_response` goes on to patch the prepared response `p`, and with
      which timeout: a `None` max-age falls back to `CACHE_MIDDLEWARE_SECONDS`, a
      max-age of 0 stops. */
  function Plan(c: Config, flag: Option<bool>, info: RequestInfo, p: ResponseData): (r: Outcome<Option<int>>)
    ensures r.Raised? <==> ShouldUpdateCache(c, flag, info, p).Raised?
    ensures r.Done? && r.value.Some? <==>
              && ShouldUpdateCache(c, flag, info, p) == Done(true)
              && info.verb == "GET" && p.status == 200 && p.isString && c.env.maxAge(p) != Some(0)
    ensures r.Done? && r.value.Some? ==>
              r.value.value == (if c.env.maxAge(p).Some? then c.env.maxAge(p).value else c.cacheTimeout)
  {
    match ShouldUpdateCache(c, flag, info, p)
    case Raised(e) => Raised(e)
    case Done(should) =>
      if !should || info.verb != "GET" || p.status != 200 || !p.isString then Done(None)
      else
        match c.env.maxAge(p)
        case None => Done(Some(c.cacheTimeout))
        case Some(t) => if t == 0 then Done(None) else Done(Some(t))
  }

  /** What `process_response` leaves: the exception it raised (if any), the response
      and the cache. */
  datatype Update = Update(raised: Option<Failure>, response: ResponseData, entries: map<string, Entry>)

  /** The cache after the learning and storing step of `process_response`: the
      registry entry of `q` under the path's key, then `q` under the learned key,
      both with timeout `t`. */
  function Learned(c: Config, info: RequestInfo, q: ResponseData, t: int, entries: map<string, Entry>): map<string, Entry>
  {
    var registry := entries[HeaderCacheKey(c.env, c.keyPrefix, info) := Entry(Registry(RegistryEntry(q)), t)];
    registry[LearnedKey(c.env, c.keyPrefix, info, q) := Entry(Page(q), t)]
  }

  /** `process_response` as a function of the update flag, the request, the response
      and the cache. */
  function AfterResponse(c: Config, flag: Option<bool>, info: RequestInfo, d: ResponseData,
                         entries: map<string, Entry>): Update
  {
    var p := Prepared(info, d);
    match Plan(c, flag, info, p)
    case Raised(e) => Update(Some(e), p, entries)
    case Done(None) => Update(None, p, entries)
    case Done(Some(t)) =>
      var q := PatchHeaders(c.env, p, t);
      Update(None, q, if t == 0 then entries else Learned(c, info, q, t, entries))
  }

  /** Learning and storing keep both entries: the registry entry under the path's key,
      the response under the learned key, the same timeout, and every other key as it
      was. */
  lemma LearnedEntries(c: Config, info: RequestInfo, q: ResponseData, t: int, entries: map<string, Entry>)
    ensures var e, hk, lk := Learned(c, info, q, t, entries), HeaderCacheKey(c.env, c.keyPrefix, info), LearnedKey(c.env, c.keyPrefix, info, q);
      && e.Keys == entries.Keys + {hk, lk}
      && CachedRegistry(e, hk) == Some(RegistryEntry(q)) && e[hk].timeout == t
      && CachedPage(e, lk) == Some(q) && e[lk].timeout == t
      && forall k :: k in entries && k != hk && k != lk ==> e[k] == entries[k]
  {
    NamespacesDisjoint(c.env, c.keyPrefix, info, c.keyPrefix, info, KeyHeaders(q));
  }

  /** `process_response` stores the response. */
  predicate Stores(c: Config, flag: Option<bool>, info: RequestInfo, d: ResponseData)
  {
    var r := Plan(c, flag, info, Prepared(info, d));
    r.Done? && r.value.Some? && r.value.value != 0
  }

  /** The response `process_response` stores and the timeout it stores it with. */
  function StoredResponse(c: Config, flag: Option<bool>, info: RequestInfo, d: ResponseData): ResponseData
    requires Stores(c, flag, info, d)
  {
    PatchHeaders(c.env, Prepared(info, d), Plan(c, flag, info, Prepared(info, d)).value.value)
  }

  class UpdateCacheMiddleware {
    const config: Config

    constructor (config: Config)
      ensures this.config == config
    {
      this.config := config;
    }

    /** The edits `process_response` always makes (lines 50-54). */
    method Prepare(info: RequestInfo, response: HttpResponse)
      modifies response
      ensures response.Data() == Prepared(info, old(response.Data()))
    {
      if info.responseHasEsi {
        response.headers := response.headers[HasEsi := "True"];
      }
      if ETag in response.headers && response.headers[ETag] == "" {
        response.headers := response.headers - {ETag};
      }
    }

    /** The patching, learning and storing step of `process_response`. */
    method PatchAndStore(info: RequestInfo, response: HttpResponse, timeout: int, cache: CacheStore)
      modifies response, cache
      ensures response.Data() == PatchHeaders(config.env, old(response.Data()), timeout)
      ensures cache.entries == if timeout == 0 then old(cache.entries)
                               else Learned(config, info, response.Data(), timeout, old(cache.entries))
    {
      response.headers := config.env.patch(response.Data(), timeout);
      if timeout != 0 {
        var key := LearnCacheKey(config.env, config.keyPrefix, info, response.Data(), timeout, cache);
        cache.Set(key, Page(response.Data()), timeout);
      }
    }

    /** `process_response(request, response)`: edits `response` in place and may store
        it, with its registry entry, in `cache`. */
    method ProcessResponse(request: Request, response: HttpResponse, cache: CacheStore)
      returns (raised: Option<Failure>)
      modifies response, cache
      ensures var u := AfterResponse(config, request.updateFlag, request.info, old(response.Data()), old(cache.entries));
        raised == u.raised && response.Data() == u.response && cache.entries == u.entries
    {
      Prepare(request.info, response);
      var should := ShouldUpdateCache(config, request.updateFlag, request.info, response.Data());
      if should.Raised? {
        return Some(should.error);
      }
      if !should.value || request.info.verb != "GET" || response.status != 200 || !response.isString {
        return None;
      }
      var timeout: int;
      var maxAge := config.env.maxAge(response.Data());
      if maxAge.None? {
        timeout := config.cacheTimeout;
      } else if maxAge.value == 0 {
        return None;
      } else {
        timeout := maxAge.value;
      }
      assert Plan(config, request.updateFlag, request.info, response.Data()) == Done(Some(timeout));
      PatchAndStore(request.info, response, timeout, cache);
      raised := None;
    }
  }

  /** The store gate: the response is stored exactly when the update flag is true,
      `_should_update_cache` agrees, the request is a GET, the response is a 200 with
      a string body, and the timeout (max-age, else `CACHE_MIDDLEWARE_SECONDS`) is
      not zero. */
  lemma StoreGate(c: Config, flag: Option<bool>, info: RequestInfo, d: ResponseData)
    ensures var p := Prepared(info, d);
      Stores(c, flag, info, d) <==>
        && ShouldUpdateCache(c, flag, info, p) == Done(true)
        && info.verb == "GET" && d.status == 200 && d.isString
        && match c.env.maxAge(p) case None => c.cacheTimeout != 0 case Some(t) => t != 0
  {
  }

  /** When nothing is stored the cache is left exactly as it was; when something is,
      it is the learned cache. */
  lemma AfterResponseEntries(c: Config, flag: Option<bool>, info: RequestInfo, d: ResponseData,
                             entries: map<string, Entry>)
    ensures !Stores(c, flag, info, d) ==> AfterResponse(c, flag, info, d, entries).entries == entries
    ensures Stores(c, flag, info, d) ==>
      AfterResponse(c, flag, info, d, entries).entries
        == Learned(c, info, StoredResponse(c, flag, info, d), Plan(c, flag, info, Prepared(info, d)).value.value, entries)
  {
  }

  /** HEAD requests are answered from the cache but never stored, and a request whose
      flag is False (set by `cache_upstream` or `simple_response_cache`) or absent is
      never stored. */
  lemma NeverStored(c: Config, flag: Option<bool>, info: RequestInfo, d: ResponseData, entries: map<string, Entry>)
    requires info.verb == "HEAD" || flag != Some(true)
    ensures !Stores(c, flag, info, d)
    ensures AfterResponse(c, flag, info, d, entries).entries == entries
  {
  }

  /** A max-age of 0 prevents storing, and so does a missing max-age with
      `CACHE_MIDDLEWARE_SECONDS` 0; the latter response is still patched. */
  lemma ZeroTimeoutNeverStored(c: Config, info: RequestInfo, d: ResponseData, entries: map<string, Entry>)
    requires c.env.maxAge(Prepared(info, d)) == Some(0) || (c.env.maxAge(Prepared(info, d)).None? && c.cacheTimeout == 0)
    ensures !Stores(c, Some(true), info, d)
    ensures AfterResponse(c, Some(true), info, d, entries).entries == entries
  {
  }

  /** Under anonymous-only caching a response that varies on Cookie is stored only
      for anonymous users, and reaching it without authentication middleware raises. */
  lemma AnonymousOnlyGate(c: Config, info: RequestInfo, d: ResponseData, entries: map<string, Entry>)
    requires c.anonymousOnly && HasVaryHeader(Prepared(info, d), "Cookie")
    ensures info.user.None? ==> AfterResponse(c, Some(true), info, d, entries) == Update(Some(ImproperlyConfigured), Prepared(info, d), entries)
    ensures info.user.Some? && info.user.value.authenticated ==> !Stores(c, Some(true), info, d)
  {
  }

  // ===========================================================================
  // Request phase

  /** What a request-phase call decides: what it returns (`Done(None)` is "go on to
      the view"), the value it assigns to `_cache_update_cache` (`None`: not assigned)
      and the headers it leaves in `_cache_middleware_headers` (`None`: not assigned). */
  datatype Verdict = Verdict(out: Outcome<Option<ResponseData>>, flag: Option<bool>, stash: Option<HeaderMap>)

  /** The ETag and Last-Modified a stored response carries. */
  function HeaderOf(d: ResponseData, name: string): Option<string>
  {
    if name in d.headers then Some(d.headers[name]) else None
  }

  /** `_process_headers(request, headers)`. */
  function Lookup(c: Config, info: RequestInfo, headers: HeaderMap, entries: map<string, Entry>): (v: Verdict)
    ensures v.stash.None?
    ensures v.out.Done? && v.out.value.None? <==> v.flag == Some(true)
    ensures v.out.Raised? <==> v.flag.None?
  {
    match CachedPage(entries, ResponseCacheKey(c.env, c.keyPrefix, info, headers))
    case None => Verdict(Done(None), Some(true), None)
    case Some(p) =>
      match NotModified(c.env, info.meta, HeaderOf(p, ETag), HeaderOf(p, LastModified))
      case Raised(e) => Verdict(Raised(e), None, None)
      case Done(notModified) =>
        if notModified then Verdict(Done(Some(NotModifiedResponse)), Some(false), None)
        else Verdict(Done(Some(WithTrueHeader(p, FromCache))), Some(false), None)
  }

  /** `headers.pop(name, None)`. */
  function Pop(h: HeaderMap, name: string): Option<string>
  {
    if name in h then h[name] else None
  }

  /** `process_request(request)`. The PURGE branch that would allow purging is
      `if False`, so every PURGE is refused. */
  function OnRequest(c: Config, info: RequestInfo, entries: map<string, Entry>): Verdict
  {
    if info.verb == "PURGE" then Verdict(Done(Some(ForbiddenResponse)), Some(false), None)
    else if (info.verb != "GET" && info.verb != "HEAD") || info.secure then Verdict(Done(None), Some(false), None)
    else
      match CachedRegistry(entries, HeaderCacheKey(c.env, c.keyPrefix, info))
      case None => Verdict(Done(None), Some(true), None)
      case Some(h) =>
        if RegistryVaryOnView in h then Verdict(Done(None), None, Some(h))
        else
          var notModified := NotModified(c.env, info.meta, Pop(h, RegistryETag), Pop(h, RegistryLastModified));
          if notModified.Raised? then Verdict(Raised(notModified.error), None, None)
          else if notModified.value then Verdict(Done(Some(NotModifiedResponse)), Some(false), None)
          else Lookup(c, info, h - {RegistryETag, RegistryLastModified}, entries)
  }

  /** `process_view(request, view, args, kwargs)` with `stashed` the request's
      `_cache_middleware_headers`. */
  function OnView(c: Config, info: RequestInfo, stashed: Option<HeaderMap>, view: View, va: ViewArgs,
                  entries: map<string, Entry>): Verdict
  {
    if stashed.None? || view.varyOnView.None? then Verdict(Done(None), None, None)
    else
      var h := stashed.value[RegistryVaryOnView := Some(view.varyOnView.value(info, va))];
      Lookup(c, info, h, entries).(stash := Some(h))
  }

  /** The request attribute after a call that may assign it. */
  function Assigned<T>(written: Option<T>, before: Option<T>): Option<T>
  {
    if written.Some? then written else before
  }

  class FetchFromCacheMiddleware {
    const config: Config

    constructor (config: Config)
      ensures this.config == config
    {
      this.config := config;
    }

    /** `_process_headers(request, headers)`: the response-cache lookup. */
    method ProcessHeaders(request: Request, headers: HeaderMap, cache: CacheStore)
      returns (out: Outcome<Option<ResponseData>>)
      modifies request
      ensures var v := Lookup(config, request.info, headers, cache.entries);
        out == v.out && request.updateFlag == Assigned(v.flag, old(request.updateFlag))
      ensures request.stashed == old(request.stashed) && request.purging == old(request.purging)
    {
      var key := GenerateCacheKey(config.env, config.keyPrefix, request.info, headers);
      var cached := cache.Get(key);
      if cached.None? || !cached.value.Page? {
        request.updateFlag := Some(true);
        return Done(None);
      }
      var response := cached.value.page;
      var etag := if ETag in response.headers then Some(response.headers[ETag]) else None;
      var lastModified := if LastModified in response.headers then Some(response.headers[LastModified]) else None;
      var notModified := NotModified(config.env, request.info.meta, etag, lastModified);
      if notModified.Raised? {
        return Raised(notModified.error);
      }
      request.updateFlag := Some(false);
      if notModified.value {
        return Done(Some(NotModifiedResponse));
      }
      out := Done(Some(WithTrueHeader(response, FromCache)));
    }

    /** `process_request(request)`. */
    method ProcessRequest(request: Request, cache: CacheStore) returns (out: Outcome<Option<ResponseData>>)
      modifies request
      ensures var v := OnRequest(config, request.info, cache.entries);
        && out == v.out
        && request.updateFlag == Assigned(v.flag, old(request.updateFlag))
        && request.stashed == Assigned(v.stash, old(request.stashed))
      ensures request.purging == old(request.purging)
    {
      var info := request.info;
      if info.verb == "PURGE" {
        request.updateFlag := Some(false);
        return Done(Some(ForbiddenResponse));
      }
      if (info.verb != "GET" && info.verb != "HEAD") || info.secure {
        request.updateFlag := Some(false);
        return Done(None);
      }
      var cached := GetCachedHeaders(config.env, config.keyPrefix, info, cache);
      if cached.None? {
        request.updateFlag := Some(true);
        return Done(None);
      }
      var headers := cached.value;
      if RegistryVaryOnView in headers {
        request.stashed := Some(headers);
        return Done(None);
      }
      var etag := Pop(headers, RegistryETag);
      headers := headers - {RegistryETag};
      var lastModified := Pop(headers, RegistryLastModified);
      headers := headers - {RegistryLastModified};
      assert lastModified == Pop(cached.value, RegistryLastModified);
      assert headers == cached.value - {RegistryETag, RegistryLastModified};
      var notModified := NotModified(config.env, info.meta, etag, lastModified);
      if notModified.Raised? {
        return Raised(notModified.error);
      }
      if notModified.value {
        request.updateFlag := Some(false);
        return Done(Some(NotModifiedResponse));
      }
      out := ProcessHeaders(request, headers, cache);
    }

    /** `process_view(request, view, args, kwargs)`: with stashed headers and a view
        that has `_vary_on_view`, pins the view's value and retries the lookup. */
    method ProcessView(request: Request, view: View, va: ViewArgs, cache: CacheStore)
      returns (out: Outcome<Option<ResponseData>>)
      modifies request
      ensures var v := OnView(config, request.info, old(request.stashed), view, va, cache.entries);
        && out == v.out
        && request.updateFlag == Assigned(v.flag, old(request.updateFlag))
        && request.stashed == Assigned(v.stash, old(request.stashed))
      ensures request.purging == old(request.purging)
    {
      if request.stashed.None? || view.varyOnView.None? {
        return Done(None);
      }
      var headers := request.stashed.value;
      var value := view.varyOnView.value(request.info, va);
      headers := headers[RegistryVaryOnView := Some(value)];
      request.stashed := Some(headers);
      out := ProcessHeaders(request, headers, cache);
    }
  }

  /** Every PURGE request is refused with 403 and the flag set to False. */
  lemma PurgeIsForbidden(c: Config, info: RequestInfo, entries: map<string, Entry>)
    requires info.verb == "PURGE"
    ensures OnRequest(c, info, entries) == Verdict(Done(Some(ForbiddenResponse)), Some(false), None)
  {
  }

  /** Methods other than GET and HEAD, and secure requests, go straight to the view
      with the flag set to False; the cache is not read. */
  lemma UncacheableRequestSkipsCache(c: Config, info: RequestInfo, e1: map<string, Entry>, e2: map<string, Entry>)
    requires info.verb != "PURGE"
    requires (info.verb != "GET" && info.verb != "HEAD") || info.secure
    ensures OnRequest(c, info, e1) == OnRequest(c, info, e2) == Verdict(Done(None), Some(false), None)
  {
  }

  /** The registry decides the first step: a miss sends the request to the view with
      the flag True; an entry with a vary-on-view value is stashed for `process_view`
      and no response is read. */
  lemma RegistryFirst(c: Config, info: RequestInfo, e1: map<string, Entry>, e2: map<string, Entry>)
    requires info.verb == "GET" || info.verb == "HEAD"
    requires !info.secure
    requires CachedRegistry(e1, HeaderCacheKey(c.env, c.keyPrefix, info)) == CachedRegistry(e2, HeaderCacheKey(c.env, c.keyPrefix, info))
    ensures CachedRegistry(e1, HeaderCacheKey(c.env, c.keyPrefix, info)).None? ==>
              OnRequest(c, info, e1) == Verdict(Done(None), Some(true), None)
    ensures var h := CachedRegistry(e1, HeaderCacheKey(c.env, c.keyPrefix, info));
            h.Some? && RegistryVaryOnView in h.value ==>
              OnRequest(c, info, e1) == OnRequest(c, info, e2) == Verdict(Done(None), None, h)
  {
  }

  /** A registry entry without vary-on-view whose pinned ETag matches the client's
      If-None-Match answers 304 with the flag False, before any response is read. */
  lemma PinnedETagAnswers304(c: Config, info: RequestInfo, e1: map<string, Entry>, e2: map<string, Entry>)
    requires info.verb == "GET" || info.verb == "HEAD"
    requires !info.secure
    requires CachedRegistry(e1, HeaderCacheKey(c.env, c.keyPrefix, info)) == CachedRegistry(e2, HeaderCacheKey(c.env, c.keyPrefix, info))
    requires var h := CachedRegistry(e1, HeaderCacheKey(c.env, c.keyPrefix, info));
      && h.Some? && RegistryVaryOnView !in h.value
      && IfNoneMatch in info.meta && Truthy(Pop(h.value, RegistryETag))
      && StripChar(info.meta[IfNoneMatch], '"') == StripChar(Pop(h.value, RegistryETag).value, '"')
    ensures OnRequest(c, info, e1) == OnRequest(c, info, e2) == Verdict(Done(Some(NotModifiedResponse)), Some(false), None)
  {
    var h := CachedRegistry(e1, HeaderCacheKey(c.env, c.keyPrefix, info)).value;
    PinnedETagAt(c, info, e1, h);
    PinnedETagAt(c, info, e2, h);
  }

  /** The pinned-ETag answer for one cache state. */
  lemma PinnedETagAt(c: Config, info: RequestInfo, e: map<string, Entry>, h: HeaderMap)
    requires (info.verb == "GET" || info.verb == "HEAD") && !info.secure
    requires CachedRegistry(e, HeaderCacheKey(c.env, c.keyPrefix, info)) == Some(h)
    requires RegistryVaryOnView !in h
    requires IfNoneMatch in info.meta && Truthy(Pop(h, RegistryETag))
    requires StripChar(info.meta[IfNoneMatch], '"') == StripChar(Pop(h, RegistryETag).value, '"')
    ensures OnRequest(c, info, e) == Verdict(Done(Some(NotModifiedResponse)), Some(false), None)
  {
    IfNoneMatchDecides(c.env, info.meta, Pop(h, RegistryETag), Pop(h, RegistryLastModified));
  }

  /** The response lookup: a miss asks for a rebuild (flag True); a hit whose own
      validators satisfy the client answers 304; any other hit is the stored response
      marked X-From-Cache; both hits set the flag False. */
  lemma LookupCases(c: Config, info: RequestInfo, headers: HeaderMap, entries: map<string, Entry>)
    ensures var p := CachedPage(entries, ResponseCacheKey(c.env, c.keyPrefix, info, headers));
      var v := Lookup(c, info, headers, entries);
      && (p.None? ==> v == Verdict(Done(None), Some(true), None))
      && (p.Some? && NotModified(c.env, info.meta, HeaderOf(p.value, ETag), HeaderOf(p.value, LastModified)) == Done(true) ==>
            v == Verdict(Done(Some(NotModifiedResponse)), Some(false), None))
      && (p.Some? && NotModified(c.env, info.meta, HeaderOf(p.value, ETag), HeaderOf(p.value, LastModified)) == Done(false) ==>
            v == Verdict(Done(Some(WithTrueHeader(p.value, FromCache))), Some(false), None))
  {
  }

  /** `process_view` does nothing without stashed headers or without `_vary_on_view`;
      otherwise the stash holds the view's value in place of the stored one. */
  lemma OnViewCases(c: Config, info: RequestInfo, stashed: Option<HeaderMap>, view: View, va: ViewArgs,
                    entries: map<string, Entry>)
    ensures stashed.None? || view.varyOnView.None? ==> OnView(c, info, stashed, view, va, entries) == Verdict(Done(None), None, None)
    ensures stashed.Some? && view.varyOnView.Some? ==>
      var v := OnView(c, info, stashed, view, va, entries);
      && v.stash.Some?
      && v.stash.value.Keys == stashed.value.Keys + {RegistryVaryOnView}
      && v.stash.value[RegistryVaryOnView] == Some(view.varyOnView.value(info, va))
      && v.out == Lookup(c, info, v.stash.value, entries).out
  {
  }

  // ===========================================================================
  // Round trips: what the response phase stores, the request phase finds

  /** Without vary-on-view, popping the validators from the stored entry gives back
      the key headers, provided the Vary header names neither validator. */
  lemma PoppedEntryIsKeyHeaders(d: ResponseData)
    requires VaryOnViewHeader !in d.headers
    requires RegistryETag !in VaryEntries(d) && RegistryLastModified !in VaryEntries(d)
    ensures RegistryEntry(d) - {RegistryETag, RegistryLastModified} == KeyHeaders(d)
  {
    var vary := VaryEntries(d);
    assert RegistryEntry(d) == PinnedValidators(d) + vary && KeyHeaders(d) == vary;
    PopValidators(PinnedValidators(d), vary);
  }

  /** Removing the validator names from pinned validators plus entries that name
      neither validator leaves just those entries. */
  lemma PopValidators(pins: HeaderMap, vary: HeaderMap)
    requires pins.Keys <= {RegistryETag, RegistryLastModified}
    requires RegistryETag !in vary && RegistryLastModified !in vary
    ensures (pins + vary) - {RegistryETag, RegistryLastModified} == vary
  {
    var popped := (pins + vary) - {RegistryETag, RegistryLastModified};
    assert popped.Keys == vary.Keys;
  }

  /** Requests that agree on everything the key reads from them. */
  predicate SameVariant(i1: RequestInfo, i2: RequestInfo, headers: HeaderMap)
  {
    && i1.host == i2.host && i1.fullPath == i2.fullPath && i1.language == i2.language
    && (forall n :: n in headers && headers[n].None? ==> (n in i1.meta <==> n in i2.meta))
    && (forall n :: n in headers && headers[n].None? && n in i1.meta ==> i1.meta[n] == i2.meta[n])
  }

  /** The request phase for a request without validators. */
  predicate PlainGet(info: RequestInfo)
  {
    (info.verb == "GET" || info.verb == "HEAD") && !info.secure
    && IfNoneMatch !in info.meta && IfModifiedSince !in info.meta
  }

  /** Round trip without vary-on-view: once a response is stored, a later GET or HEAD
      of the same variant (same host, path, language and Vary headers) without
      validators is answered from the cache in `process_request`. */
  lemma FetchFindsStoredPage(c: Config, flag: Option<bool>, info: RequestInfo, d: ResponseData,
                             entries: map<string, Entry>, later: RequestInfo)
    requires Stores(c, flag, info, d)
    requires var q := StoredResponse(c, flag, info, d);
      && VaryOnViewHeader !in q.headers
      && RegistryETag !in VaryEntries(q) && RegistryLastModified !in VaryEntries(q)
      && SameVariant(info, later, KeyHeaders(q))
    requires PlainGet(later)
    ensures var q := StoredResponse(c, flag, info, d);
      OnRequest(c, later, AfterResponse(c, flag, info, d, entries).entries)
        == Verdict(Done(Some(WithTrueHeader(q, FromCache))), Some(false), None)
  {
    var q := StoredResponse(c, flag, info, d);
    var e := AfterResponse(c, flag, info, d, entries).entries;
    StoredLookups(c, flag, info, d, entries);
    var h := RegistryEntry(q);
    PoppedEntryIsKeyHeaders(q);
    KeyHeadersFromVary(q);
    assert RegistryVaryOnView !in h by {
      assert RegistryVaryOnView !in h - {RegistryETag, RegistryLastModified};
    }
    ResponseKeyDependsOnLiveNames(c.env, c.keyPrefix, info, later, KeyHeaders(q));
    assert HeaderCacheKey(c.env, c.keyPrefix, later) == HeaderCacheKey(c.env, c.keyPrefix, info);
    PlainGetFindsPage(c, later, e, h, q);
  }

  /** After a store, the path's registry holds the learned entry and the learned key
      holds the stored response. */
  lemma StoredLookups(c: Config, flag: Option<bool>, info: RequestInfo, d: ResponseData, entries: map<string, Entry>)
    requires Stores(c, flag, info, d)
    ensures var q := StoredResponse(c, flag, info, d);
      var e := AfterResponse(c, flag, info, d, entries).entries;
      && CachedRegistry(e, HeaderCacheKey(c.env, c.keyPrefix, info)) == Some(RegistryEntry(q))
      && CachedPage(e, LearnedKey(c.env, c.keyPrefix, info, q)) == Some(q)
  {
    var q := StoredResponse(c, flag, info, d);
    AfterResponseEntries(c, flag, info, d, entries);
    LearnedEntries(c, info, q, Plan(c, flag, info, Prepared(info, d)).value.value, entries);
  }

  /** A plain GET whose registry entry has no vary-on-view and whose popped entry
      leads to a stored response is answered with that response. */
  lemma PlainGetFindsPage(c: Config, info: RequestInfo, e: map<string, Entry>, h: HeaderMap, q: ResponseData)
    requires PlainGet(info)
    requires CachedRegistry(e, HeaderCacheKey(c.env, c.keyPrefix, info)) == Some(h)
    requires RegistryVaryOnView !in h
    requires CachedPage(e, ResponseCacheKey(c.env, c.keyPrefix, info, h - {RegistryETag, RegistryLastModified})) == Some(q)
    ensures OnRequest(c, info, e) == Verdict(Done(Some(WithTrueHeader(q, FromCache))), Some(false), None)
  {
    NoValidatorsMeansModified(c.env, info.meta, Pop(h, RegistryETag), Pop(h, RegistryLastModified));
    NoValidatorsMeansModified(c.env, info.meta, HeaderOf(q, ETag), HeaderOf(q, LastModified));
  }

  /** Round trip with vary-on-view, first half: the request phase stashes the stored
      entry, which is exactly the key headers with the stored value pinned. */
  lemma FetchStashesVaryOnView(c: Config, flag: Option<bool>, info: RequestInfo, d: ResponseData,
                               entries: map<string, Entry>, later: RequestInfo)
    requires Stores(c, flag, info, d)
    requires VaryOnViewHeader in StoredResponse(c, flag, info, d).headers
    requires (later.verb == "GET" || later.verb == "HEAD") && !later.secure
    requires later.host == info.host && later.fullPath == info.fullPath && later.language == info.language
    ensures var q := StoredResponse(c, flag, info, d);
      OnRequest(c, later, AfterResponse(c, flag, info, d, entries).entries)
        == Verdict(Done(None), None, Some(KeyHeaders(q)))
  {
    var q := StoredResponse(c, flag, info, d);
    AfterResponseEntries(c, flag, info, d, entries);
    LearnedEntries(c, info, q, Plan(c, flag, info, Prepared(info, d)).value.value, entries);
    assert HeaderCacheKey(c.env, c.keyPrefix, later) == HeaderCacheKey(c.env, c.keyPrefix, info);
    VaryOnViewSupersedesCookie(q);
  }

  /** Round trip with vary-on-view, second half: when the view's `_vary_on_view`
      yields the stored value, `process_view` finds the stored response. */
  lemma ViewFindsVaryOnViewPage(c: Config, flag: Option<bool>, info: RequestInfo, d: ResponseData,
                                entries: map<string, Entry>, later: RequestInfo, view: View, va: ViewArgs)
    requires Stores(c, flag, info, d)
    requires var q := StoredResponse(c, flag, info, d);
      && VaryOnViewHeader in q.headers
      && view.varyOnView.Some? && view.varyOnView.value(later, va) == q.headers[VaryOnViewHeader]
      && SameVariant(info, later, KeyHeaders(q))
    requires IfNoneMatch !in later.meta && IfModifiedSince !in later.meta
    ensures var q := StoredResponse(c, flag, info, d);
      var v := OnView(c, later, Some(KeyHeaders(q)), view, va, AfterResponse(c, flag, info, d, entries).entries);
      v.out == Done(Some(WithTrueHeader(q, FromCache))) && v.flag == Some(false)
  {
    var q := StoredResponse(c, flag, info, d);
    var e := AfterResponse(c, flag, info, d, entries).entries;
    StoredLookups(c, flag, info, d, entries);
    VaryOnViewSupersedesCookie(q);
    var h := KeyHeaders(q)[RegistryVaryOnView := Some(view.varyOnView.value(later, va))];
    assert h == KeyHeaders(q);
    ResponseKeyDependsOnLiveNames(c.env, c.keyPrefix, info, later, KeyHeaders(q));
    assert CachedPage(e, ResponseCacheKey(c.env, c.keyPrefix, later, h)) == Some(q);
    NoValidatorsMeansModified(c.env, later.meta, HeaderOf(q, ETag), HeaderOf(q, LastModified));
  }

  /** Cookie suppression: under vary-on-view, two requests that differ only in their
      Cookie header read the same response key, even when the Vary header lists
      Cookie. */
  lemma CookieDoesNotSplitVaryOnView(c: Config, i1: RequestInfo, i2: RequestInfo, q: ResponseData)
    requires VaryOnViewHeader in q.headers
    requires i1.host == i2.host && i1.fullPath == i2.fullPath && i1.language == i2.language
    requires i1.meta - {RegistryCookie} == i2.meta - {RegistryCookie}
    ensures ResponseCacheKey(c.env, c.keyPrefix, i1, KeyHeaders(q)) == ResponseCacheKey(c.env, c.keyPrefix, i2, KeyHeaders(q))
  {
    VaryOnViewSupersedesCookie(q);
    forall n | n in KeyHeaders(q)
      ensures (n in i1.meta <==> n in i2.meta) && (n in i1.meta ==> i1.meta[n] == i2.meta[n])
    {
      assert n != RegistryCookie;
      assert n in i1.meta <==> n in i1.meta - {RegistryCookie};
      assert n in i2.meta <==> n in i2.meta - {RegistryCookie};
      if n in i1.meta {
        assert i1.meta[n] == (i1.meta - {RegistryCookie})[n];
      }
    }
    ResponseKeyDependsOnLiveNames(c.env, c.keyPrefix, i1, i2, KeyHeaders(q));
  }

  /** The vary-on-view decorator closes the loop: a view whose header and
      `_vary_on_view` agree is stored under the value its header carries, and the
      same request, rendered by `process_view` with that view, finds the response. */
  lemma DecoratedViewRoundTrip(c: Config, flag: Option<bool>, info: RequestInfo, view: View, va: ViewArgs,
                               entries: map<string, Entry>)
    requires AgreesAt(view, info, va) && view.render(info, va).status == 200 && !info.secure
    requires Stores(c, flag, info, view.render(info, va))
    requires var p := Prepared(info, view.render(info, va));
      var t := Plan(c, flag, info, p).value.value;
      VaryOnViewHeader in c.env.patch(p, t) && c.env.patch(p, t)[VaryOnViewHeader] == p.headers[VaryOnViewHeader]
    requires IfNoneMatch !in info.meta && IfModifiedSince !in info.meta
    ensures var d := view.render(info, va);
      var q := StoredResponse(c, flag, info, d);
      var e := AfterResponse(c, flag, info, d, entries).entries;
      && OnRequest(c, info, e) == Verdict(Done(None), None, Some(KeyHeaders(q)))
      && OnView(c, info, Some(KeyHeaders(q)), view, va, e).out == Done(Some(WithTrueHeader(q, FromCache)))
  {
    var d := view.render(info, va);
    var q := StoredResponse(c, flag, info, d);
    assert VaryOnViewHeader in q.headers && q.headers[VaryOnViewHeader] == view.varyOnView.value(info, va);
    FetchStashesVaryOnView(c, flag, info, d, entries, info);
    ViewFindsVaryOnViewPage(c, flag, info, d, entries, info, view, va);
  }
}
