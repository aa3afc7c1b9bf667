/** The collaborators of the cache layer: the request and response objects, the
    shared cache store, views, and the foreign helpers the core calls into. */
module Http {
  import opened Wrappers
  import opened PyValues

  /** A header registry entry (the "global path registry"): request-header name
      (`HTTP_*` or `X-Vary-On-View`) to a pinned value, or `None` for "use the
      live request's value". */
  type HeaderMap = map<string, Option<string>>

  // Response header names as Django's HttpResponse stores them (lower-cased).
  const ETag := "etag"
  const LastModified := "last-modified"
  const Vary := "vary"
  const VaryOnViewHeader := "x-vary-on-view"
  const FromCache := "x-from-cache"
  const HasEsi := "has-esi"

  // request.META names.
  const IfNoneMatch := "HTTP_IF_NONE_MATCH"
  const IfModifiedSince := "HTTP_IF_MODIFIED_SINCE"

  // Names used inside a registry entry.
  const RegistryETag := "HTTP_ETAG"
  const RegistryLastModified := "HTTP_LAST_MODIFIED"
  const RegistryVaryOnView := "X-Vary-On-View"
  const RegistryCookie := "HTTP_COOKIE"

  /** `request.user`: Django's AnonymousUser is not authenticated and not staff. */
  datatype User = User(authenticated: bool, isStaff: bool, id: int)

  const AnonymousUser := User(false, false, 0)

  /** The parts of a request the cache layer reads (`verb` is `request.method`). `user` is `None` when the
      authentication middleware is not installed (no `request.user`); `language`
      is the language code appended to keys when internationalisation is on. */
  datatype RequestInfo = RequestInfo(
    verb: string,
    secure: bool,
    host: string,
    fullPath: string,
    meta: map<string, string>,
    user: Option<User>,
    language: string,
    responseHasEsi: bool)

  /** A response as the cache stores it (a pickled copy): status, headers keyed by
      lower-cased name, body, and whether the body is a plain string. */
  datatype ResponseData = ResponseData(
    status: int,
    headers: map<string, string>,
    content: string,
    isString: bool)

  const DefaultContentType := map["content-type" := "text/html; charset=utf-8"]

  /** `HttpResponseNotModified()`. */
  const NotModifiedResponse := ResponseData(304, DefaultContentType, "", true)

  /** The `HttpResponseForbidden` answered to a PURGE request. */
  const ForbiddenResponse :=
    ResponseData(403, DefaultContentType, "Your address is now allowed to make purge requests.", true)

  /** `response[name] = True`: Django stores the header value as the string "True". */
  function WithTrueHeader(d: ResponseData, name: string): (r: ResponseData)
    ensures r.status == d.status && r.content == d.content && r.isString == d.isString
    ensures r.headers == d.headers[name := "True"]
  {
    d.(headers := d.headers[name := "True"])
  }

  /** `patch_response_headers(response, timeout)`: only the headers change. */
  function PatchHeaders(env: Env, d: ResponseData, timeout: int): (r: ResponseData)
    ensures r.status == d.status && r.content == d.content && r.isString == d.isString
    ensures r.headers == env.patch(d, timeout)
  {
    d.(headers := env.patch(d, timeout))
  }

  /** `add_never_cache_headers(response)`: only the headers change. */
  function NeverCacheHeaders(env: Env, d: ResponseData): (r: ResponseData)
    ensures r.status == d.status && r.content == d.content && r.isString == d.isString
    ensures r.headers == env.neverCache(d)
  {
    d.(headers := env.neverCache(d))
  }

  /** What the shared cache holds: registry entries and pickled responses. */
  datatype CacheValue = Registry(registry: HeaderMap) | Page(page: ResponseData)

  /** A stored value with the timeout it was stored with (expiry is the store's business). */
  datatype Entry = Entry(value: CacheValue, timeout: int)

  /** Foreign helpers and settings the core relies on, given as functions:
      - md5 / sha256: the hex digest of everything fed to one hashing context;
      - repr: Python's `repr` of a normalised value;
      - iriToUri: `django.utils.encoding.iri_to_uri`;
      - useI18n: `settings.USE_I18N`;
      - parseDate: `parse_http_date`, `None` where `email.Utils.parsedate` or the
        `datetime` constructor fails, else seconds since the epoch;
      - maxAge: `get_max_age`, the Cache-Control max-age of a response;
      - patch: the headers `patch_response_headers(response, timeout)` leaves;
      - neverCache: the headers `add_never_cache_headers(response)` leaves;
      - middlewareSeconds: `settings.CACHE_MIDDLEWARE_SECONDS`. */
  datatype Env = Env(
    md5: string -> string,
    sha256: string -> string,
    repr: Norm -> string,
    iriToUri: string -> string,
    useI18n: bool,
    parseDate: string -> Option<int>,
    maxAge: ResponseData -> Option<int>,
    patch: (ResponseData, int) -> map<string, string>,
    neverCache: ResponseData -> map<string, string>,
    middlewareSeconds: int)

  /** The positional and keyword arguments a view is called with. */
  datatype ViewArgs = ViewArgs(args: seq<PyValue>, kwargs: map<string, PyValue>)

  /** A view's `_vary_on_view` function: request and arguments to a key fragment. */
  type VaryFn = (RequestInfo, ViewArgs) -> string

  /** A view function: its `__module__` (`moduleName`) and `__name__`, what calling it returns,
      and its `_vary_on_view` attribute when it has one. */
  datatype View = View(
    moduleName: string,
    name: string,
    render: (RequestInfo, ViewArgs) -> ResponseData,
    varyOnView: Option<VaryFn>)

  /** A request object, with the attributes the middleware and decorators attach to it. */
  class Request {
    const info: RequestInfo
    /** `request._cache_update_cache`; `None` while the attribute is absent. */
    var updateFlag: Option<bool>
    /** `request._cache_middleware_headers`; `None` while the attribute is absent. */
    var stashed: Option<HeaderMap>
    /** `getattr(request, '_purging', False)`. */
    var purging: bool

    constructor (info: RequestInfo)
      ensures this.info == info && updateFlag == None && stashed == None && !purging
    {
      this.info := info;
      updateFlag := None;
      stashed := None;
      purging := false;
    }
  }

  /** A response object whose headers the middleware edits in place. */
  class HttpResponse {
    const status: int
    const content: string
    const isString: bool
    var headers: map<string, string>

    constructor (d: ResponseData)
      ensures Data() == d
    {
      status, content, isString := d.status, d.content, d.isString;
      headers := d.headers;
    }

    /** The response's current state as a value. */
    function Data(): ResponseData
      reads this
    {
      ResponseData(status, headers, content, isString)
    }
  }

  /** The shared cache (`django.core.cache.cache`), one key-value map. */
  class CacheStore {
    var entries: map<string, Entry>

    constructor ()
      ensures entries == map[]
    {
      entries := map[];
    }

    /** `cache.get(key, None)`. */
    method Get(key: string) returns (v: Option<CacheValue>)
      ensures v == if key in entries then Some(entries[key].value) else None
    {
      v := if key in entries then Some(entries[key].value) else None;
    }

    /** `cache.set(key, value, timeout)`: the new value supersedes any old one. */
    method Set(key: string, value: CacheValue, timeout: int)
      modifies this
      ensures entries == old(entries)[key := Entry(value, timeout)]
    {
      entries := entries[key := Entry(value, timeout)];
    }
  }

  /** The response stored under `key`, if a response is stored there. */
  function CachedPage(entries: map<string, Entry>, key: string): (r: Option<ResponseData>)
    ensures r.Some? <==> key in entries && entries[key].value.Page?
    ensures r.Some? ==> r.value == entries[key].value.page
  {
    if key in entries && entries[key].value.Page? then Some(entries[key].value.page) else None
  }

  /** The registry entry stored under `key`, if one is stored there. */
  function CachedRegistry(entries: map<string, Entry>, key: string): (r: Option<HeaderMap>)
    ensures r.Some? <==> key in entries && entries[key].value.Registry?
    ensures r.Some? ==> r.value == entries[key].value.registry
  {
    if key in entries && entries[key].value.Registry? then Some(entries[key].value.registry) else None
  }

  /** Reading after `cache.set`: the key just written yields what was stored there (a
      page as a page, a registry entry as a registry entry, never the other kind), and
      every other key reads as before. */
  lemma CachedAfterSet(entries: map<string, Entry>, key: string, value: CacheValue, timeout: int, other: string)
    requires other != key
    ensures var e := entries[key := Entry(value, timeout)];
      && CachedPage(e, key) == (if value.Page? then Some(value.page) else None)
      && CachedRegistry(e, key) == (if value.Registry? then Some(value.registry) else None)
      && CachedPage(e, other) == CachedPage(entries, other)
      && CachedRegistry(e, other) == CachedRegistry(entries, other)
  {
  }
}
