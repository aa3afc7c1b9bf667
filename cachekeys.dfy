/** Cache keys of middleware/utils.py: the per-path registry key and the
    per-variant response key, and the registry lookup. */
module CacheKeys {
  import opened Wrappers
  import opened Sorting
  import opened Http

  const HeadersNamespace := "cache_middleware.headers."
  const ResponseNamespace := "cache_middleware.response."

  /** `_i18n_cache_key_suffix`: with internationalisation on, `.<language>` is appended. */
  function I18nSuffix(env: Env, info: RequestInfo, key: string): string
  {
    if env.useI18n then key + "." + info.language else key
  }

  /** The digest of the host followed by the full path, query string included. */
  function UrlDigest(env: Env, info: RequestInfo): string
  {
    env.md5(info.host + env.iriToUri(info.fullPath))
  }

  /** `_generate_cache_header_key`: one registry key per host and full path. */
  function HeaderCacheKey(env: Env, keyPrefix: string, info: RequestInfo): string
  {
    I18nSuffix(env, info, HeadersNamespace + keyPrefix + "." + UrlDigest(env, info))
  }

  /** What one registry name feeds to the digest: the pinned value, else the live
      request header, else nothing. */
  function Contribution(headers: HeaderMap, meta: map<string, string>, name: string): string
    requires name in headers
  {
    match headers[name]
    case Some(v) => v
    case None => if name in meta then meta[name] else ""
  }

  /** Everything fed to the digest context when visiting `names` in order. */
  function DigestText(headers: HeaderMap, meta: map<string, string>, names: seq<string>): string
    requires forall n :: n in names ==> n in headers
  {
    if names == [] then ""
    else Contribution(headers, meta, names[0]) + DigestText(headers, meta, names[1..])
  }

  lemma {:induction false} DigestTextAppend(headers: HeaderMap, meta: map<string, string>, names: seq<string>, n: string)
    requires forall x :: x in names ==> x in headers
    requires n in headers
    ensures DigestText(headers, meta, names + [n]) == DigestText(headers, meta, names) + Contribution(headers, meta, n)
  {
    if names != [] {
      assert (names + [n])[1..] == names[1..] + [n];
      DigestTextAppend(headers, meta, names[1..], n);
    }
  }

  /** The key `generate_cache_key` returns for `headers`. */
  function ResponseCacheKey(env: Env, keyPrefix: string, info: RequestInfo, headers: HeaderMap): string
  {
    var digest := env.md5(DigestText(headers, info.meta, SortedKeys(headers.Keys)));
    I18nSuffix(env, info, ResponseNamespace + keyPrefix + "." + UrlDigest(env, info) + "." + digest)
  }

  /** `generate_cache_key`: visits the registry names in sorted order, feeding each
      pinned value, or the request's own header when the value is `None` and the
      request has one. */
  method GenerateCacheKey(env: Env, keyPrefix: string, info: RequestInfo, headers: HeaderMap)
    returns (key: string)
    ensures key == ResponseCacheKey(env, keyPrefix, info, headers)
  {
    var ctx := FeedDigest(headers, info.meta, SortedKeys(headers.Keys));
    var url := env.md5(info.host + env.iriToUri(info.fullPath));
    key := I18nSuffix(env, info, ResponseNamespace + keyPrefix + "." + url + "." + env.md5(ctx));
  }

  /** The loop of `generate_cache_key`: what it feeds the digest context. */
  method FeedDigest(headers: HeaderMap, meta: map<string, string>, names: seq<string>) returns (ctx: string)
    requires forall n :: n in names ==> n in headers
    ensures ctx == DigestText(headers, meta, names)
  {
    ctx := "";
    var i := 0;
    while i < |names|
      invariant 0 <= i <= |names|
      invariant ctx == DigestText(headers, meta, names[..i])
    {
      var name := names[i];
      var value := headers[name];
      if value.None? {
        if name in meta {
          ctx := ctx + meta[name];
        }
      } else {
        ctx := ctx + value.value;
      }
      assert names[..i + 1] == names[..i] + [name];
      DigestTextAppend(headers, meta, names[..i], name);
      i := i + 1;
    }
    assert names[..i] == names;
  }

  /** `get_cached_headers`: the registry entry stored for this host and path. */
  method GetCachedHeaders(env: Env, keyPrefix: string, info: RequestInfo, cache: CacheStore)
    returns (headers: Option<HeaderMap>)
    ensures headers == CachedRegistry(cache.entries, HeaderCacheKey(env, keyPrefix, info))
  {
    var v := cache.Get(HeaderCacheKey(env, keyPrefix, info));
    headers := if v.Some? && v.value.Registry? then Some(v.value.registry) else None;
  }

  /** The response key depends on the registry entry as a set of names: digesting
      any strictly increasing listing of its names, however it was produced, gives
      the same key. */
  lemma ResponseKeyFollowsSortedOrder(env: Env, keyPrefix: string, info: RequestInfo, headers: HeaderMap,
                                      names: seq<string>)
    requires StrictlySorted(names)
    requires forall n :: n in names <==> n in headers
    ensures ResponseCacheKey(env, keyPrefix, info, headers)
         == I18nSuffix(env, info, ResponseNamespace + keyPrefix + "." + UrlDigest(env, info) + "."
                                  + env.md5(DigestText(headers, info.meta, names)))
  {
    SortedUnique(names, headers.Keys);
  }

  /** Registry keys start with `cache_middleware.headers.`, response keys with
      `cache_middleware.response.`; both then carry the prefix and the URL digest. */
  lemma KeyNamespaces(env: Env, keyPrefix: string, info: RequestInfo, headers: HeaderMap)
    ensures HeadersNamespace + keyPrefix + "." + UrlDigest(env, info) <= HeaderCacheKey(env, keyPrefix, info)
    ensures ResponseNamespace + keyPrefix + "." + UrlDigest(env, info) + "."
            <= ResponseCacheKey(env, keyPrefix, info, headers)
  {
  }

  /** The two namespaces never meet: no registry key is a response key. */
  lemma NamespacesDisjoint(env: Env, p1: string, i1: RequestInfo, p2: string, i2: RequestInfo, headers: HeaderMap)
    ensures HeaderCacheKey(env, p1, i1) != ResponseCacheKey(env, p2, i2, headers)
  {
    var a, b := HeaderCacheKey(env, p1, i1), ResponseCacheKey(env, p2, i2, headers);
    KeyNamespaces(env, p1, i1, headers);
    KeyNamespaces(env, p2, i2, headers);
    assert HeadersNamespace <= a && ResponseNamespace <= b;
    assert a[17] == HeadersNamespace[17] == 'h';
    assert b[17] == ResponseNamespace[17] == 'r';
  }

  /** Requests agreeing on every live (unpinned) registry name read the same digest. */
  lemma {:induction false} DigestTextDependsOnLiveNames(
    headers: HeaderMap, m1: map<string, string>, m2: map<string, string>, names: seq<string>)
    requires forall n :: n in names ==> n in headers
    requires forall n :: n in headers && headers[n].None? ==> (n in m1 <==> n in m2)
    requires forall n :: n in headers && headers[n].None? && n in m1 ==> m1[n] == m2[n]
    ensures DigestText(headers, m1, names) == DigestText(headers, m2, names)
  {
    if names != [] {
      DigestTextDependsOnLiveNames(headers, m1, m2, names[1..]);
    }
  }

  /** The response key reads the request only through host, full path, language and
      the headers named with a `None` value: nothing else in the request matters. */
  lemma ResponseKeyDependsOnLiveNames(env: Env, keyPrefix: string, i1: RequestInfo, i2: RequestInfo, headers: HeaderMap)
    requires i1.host == i2.host && i1.fullPath == i2.fullPath && i1.language == i2.language
    requires forall n :: n in headers && headers[n].None? ==> (n in i1.meta <==> n in i2.meta)
    requires forall n :: n in headers && headers[n].None? && n in i1.meta ==> i1.meta[n] == i2.meta[n]
    ensures ResponseCacheKey(env, keyPrefix, i1, headers) == ResponseCacheKey(env, keyPrefix, i2, headers)
  {
    DigestTextDependsOnLiveNames(headers, i1.meta, i2.meta, SortedKeys(headers.Keys));
  }

  /** A fully pinned registry entry ignores the request's headers altogether. */
  lemma PinnedKeyIgnoresRequestHeaders(env: Env, keyPrefix: string, i1: RequestInfo, i2: RequestInfo, headers: HeaderMap)
    requires i1.host == i2.host && i1.fullPath == i2.fullPath && i1.language == i2.language
    requires forall n :: n in headers ==> headers[n].Some?
    ensures ResponseCacheKey(env, keyPrefix, i1, headers) == ResponseCacheKey(env, keyPrefix, i2, headers)
  {
    ResponseKeyDependsOnLiveNames(env, keyPrefix, i1, i2, headers);
  }

  lemma {:induction false} DigestTextSkipsSilentName(
    headers: HeaderMap, meta: map<string, string>, names: seq<string>, k: string)
    requires forall n :: n in names ==> n in headers
    requires k in headers && headers[k].None? && k !in meta
    ensures DigestText(headers, meta, names) == DigestText(headers - {k}, meta, Without(names, k))
  {
    if names != [] {
      DigestTextSkipsSilentName(headers, meta, names[1..], k);
    }
  }

  /** A live name the request does not carry contributes nothing: the key is the
      one computed without that name. */
  lemma AbsentLiveHeaderIsSilent(env: Env, keyPrefix: string, info: RequestInfo, headers: HeaderMap, k: string)
    requires k in headers && headers[k].None? && k !in info.meta
    ensures ResponseCacheKey(env, keyPrefix, info, headers) == ResponseCacheKey(env, keyPrefix, info, headers - {k})
  {
    assert (headers - {k}).Keys == headers.Keys - {k};
    SortedKeysRemove(headers.Keys, k);
    DigestTextSkipsSilentName(headers, info.meta, SortedKeys(headers.Keys), k);
  }

  /** Header names never reach the digest: one pinned value gives the same key
      under any name. */
  lemma NamesAreNotDigested(env: Env, keyPrefix: string, info: RequestInfo, a: string, b: string, v: string)
    ensures ResponseCacheKey(env, keyPrefix, info, map[a := Some(v)])
         == ResponseCacheKey(env, keyPrefix, info, map[b := Some(v)])
  {
    var ka, kb := SortedKeys(map[a := Some(v)].Keys), SortedKeys(map[b := Some(v)].Keys);
    assert |ka| == 1 && ka[0] == a;
    assert |kb| == 1 && kb[0] == b;
    assert DigestText(map[a := Some(v)], info.meta, ka) == v + DigestText(map[a := Some(v)], info.meta, []);
    assert DigestText(map[b := Some(v)], info.meta, kb) == v + DigestText(map[b := Some(v)], info.meta, []);
  }
}
