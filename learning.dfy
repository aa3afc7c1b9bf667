/** `learn_cache_key` of middleware/utils.py: from a freshly generated response,
    the registry entry stored for its path and the key its body is stored under. */
module Learning {
  import opened Wrappers
  import opened Text
  import opened Http
  import opened CacheKeys
  import opened Validators

  /** The request.META name of a header: `'HTTP_' + name.upper().replace('-', '_')`. */
  function MetaName(header: string): (r: string)
    ensures |r| >= 5 && r[..5] == "HTTP_"
  {
    "HTTP_" + Upper(Replace(header, '-', '_'))
  }

  /** No Vary name turns into the vary-on-view entry. */
  lemma MetaNameIsNotVaryOnView(header: string)
    ensures MetaName(header) != RegistryVaryOnView
  {
    assert MetaName(header)[0] == 'H' && RegistryVaryOnView[0] == 'X';
  }

  /** The header names listed in the response's Vary header. */
  function VaryNames(d: ResponseData): seq<string>
  {
    if Vary in d.headers then SplitCommas(d.headers[Vary]) else []
  }

  /** The registry built from a list of Vary names: each one's META name, unpinned. */
  function VaryEntriesOf(names: seq<string>): HeaderMap
  {
    if names == [] then map[]
    else VaryEntriesOf(names[..|names| - 1])[MetaName(names[|names| - 1]) := None]
  }

  /** The entries of `VaryEntriesOf(names)` are exactly the META names of `names`,
      all unpinned. */
  lemma {:induction false} VaryEntriesOfShape(names: seq<string>)
    ensures forall k :: k in VaryEntriesOf(names) ==> VaryEntriesOf(names)[k] == None
    ensures forall k :: k in VaryEntriesOf(names) <==> exists n :: n in names && MetaName(n) == k
  {
    if names != [] {
      var init := names[..|names| - 1];
      assert forall n :: n in names <==> n in init || n == names[|names| - 1];
      VaryEntriesOfShape(init);
    }
  }

  /** `response_headers` before the vary-on-view step. */
  function VaryEntries(d: ResponseData): HeaderMap
  {
    VaryEntriesOf(VaryNames(d))
  }

  /** `response_headers` after the vary-on-view step: the headers the response key is
      computed from. A vary-on-view value is pinned and replaces the Cookie header. */
  function KeyHeaders(d: ResponseData): HeaderMap
  {
    KeyHeadersFrom(VaryEntries(d), d)
  }

  /** The vary-on-view step applied to the Vary entries `vary`. */
  function KeyHeadersFrom(vary: HeaderMap, d: ResponseData): HeaderMap
  {
    if VaryOnViewHeader in d.headers then
      vary[RegistryVaryOnView := Some(d.headers[VaryOnViewHeader])] - {RegistryCookie}
    else vary
  }

  /** The response's ETag and Last-Modified, pinned under their registry names. */
  function PinnedValidators(d: ResponseData): HeaderMap
  {
    (if ETag in d.headers then map[RegistryETag := Some(d.headers[ETag])] else map[])
      + (if LastModified in d.headers then map[RegistryLastModified := Some(d.headers[LastModified])] else map[])
  }

  /** `key_headers`: the registry entry stored for the path. */
  function RegistryEntry(d: ResponseData): HeaderMap
  {
    RegistryEntryFrom(VaryEntries(d), d)
  }

  /** The registry entry built from the Vary entries `vary`. */
  function RegistryEntryFrom(vary: HeaderMap, d: ResponseData): HeaderMap
  {
    if VaryOnViewHeader in d.headers then KeyHeadersFrom(vary, d) else PinnedValidators(d) + vary
  }

  /** The key `learn_cache_key` returns. */
  function LearnedKey(env: Env, keyPrefix: string, info: RequestInfo, d: ResponseData): string
  {
    ResponseCacheKey(env, keyPrefix, info, KeyHeaders(d))
  }

  /** The loop of `learn_cache_key` over the Vary header's names. */
  method CollectVaryHeaders(response: ResponseData) returns (responseHeaders: HeaderMap)
    ensures responseHeaders == VaryEntries(response)
  {
    responseHeaders := map[];
    if Vary in response.headers {
      var names := SplitCommas(response.headers[Vary]);
      var i := 0;
      while i < |names|
        invariant 0 <= i <= |names|
        invariant responseHeaders == VaryEntriesOf(names[..i])
      {
        assert names[..i + 1][..i] == names[..i];
        responseHeaders := responseHeaders[MetaName(names[i]) := None];
        i := i + 1;
      }
      assert names[..i] == names;
    }
  }

  /** The middle of `learn_cache_key`: from the Vary entries, the headers of the
      response key (`response_headers`) and the registry entry (`key_headers`). */
  method SplitKeyAndRegistry(response: ResponseData, vary: HeaderMap)
    returns (responseHeaders: HeaderMap, keyHeaders: HeaderMap)
    ensures responseHeaders == KeyHeadersFrom(vary, response)
    ensures keyHeaders == RegistryEntryFrom(vary, response)
  {
    responseHeaders := vary;
    if VaryOnViewHeader in response.headers {
      responseHeaders := responseHeaders[RegistryVaryOnView := Some(response.headers[VaryOnViewHeader])];
      if RegistryCookie in responseHeaders {
        responseHeaders := responseHeaders - {RegistryCookie};
      }
      keyHeaders := responseHeaders;
    } else {
      keyHeaders := map[];
      if ETag in response.headers {
        keyHeaders := keyHeaders[RegistryETag := Some(response.headers[ETag])];
      }
      if LastModified in response.headers {
        keyHeaders := keyHeaders[RegistryLastModified := Some(response.headers[LastModified])];
      }
      assert keyHeaders == PinnedValidators(response);
      keyHeaders := keyHeaders + responseHeaders;
    }
  }

  /** `learn_cache_key(request, response, timeout, key_prefix)`: stores the registry
      entry under the path's registry key with the same timeout and returns the key
      for the response itself. */
  method LearnCacheKey(env: Env, keyPrefix: string, info: RequestInfo, response: ResponseData,
                       timeout: int, cache: CacheStore)
    returns (key: string)
    modifies cache
    ensures cache.entries == old(cache.entries)[HeaderCacheKey(env, keyPrefix, info) :=
                                                Entry(Registry(RegistryEntry(response)), timeout)]
    ensures key == LearnedKey(env, keyPrefix, info, response)
  {
    var responseHeaders := CollectVaryHeaders(response);
    var keyHeaders;
    responseHeaders, keyHeaders := SplitKeyAndRegistry(response, responseHeaders);
    cache.Set(HeaderCacheKey(env, keyPrefix, info), Registry(keyHeaders), timeout);
    key := GenerateCacheKey(env, keyPrefix, info, responseHeaders);
  }

  /** Every Vary name becomes its META name with "use the live value", except that a
      vary-on-view value supersedes Cookie; nothing else enters the key headers. */
  lemma KeyHeadersFromVary(d: ResponseData)
    ensures forall n :: n in VaryNames(d) && !(VaryOnViewHeader in d.headers && MetaName(n) == RegistryCookie)
              ==> MetaName(n) in KeyHeaders(d) && KeyHeaders(d)[MetaName(n)] == None
    ensures forall k :: k in KeyHeaders(d) && k != RegistryVaryOnView
              ==> KeyHeaders(d)[k] == None && exists n :: n in VaryNames(d) && MetaName(n) == k
    ensures RegistryVaryOnView in KeyHeaders(d) <==> VaryOnViewHeader in d.headers
  {
    VaryEntriesOfShape(VaryNames(d));
    forall n | n in VaryNames(d) ensures MetaName(n) != RegistryVaryOnView {
      MetaNameIsNotVaryOnView(n);
    }
    assert RegistryVaryOnView !in VaryEntries(d);
  }

  /** Vary-on-view precedence: a response carrying X-Vary-On-View pins that value,
      and HTTP_COOKIE is in neither the stored entry nor the key headers, even when
      the Vary header lists Cookie. */
  lemma VaryOnViewSupersedesCookie(d: ResponseData)
    requires VaryOnViewHeader in d.headers
    ensures RegistryEntry(d) == KeyHeaders(d)
    ensures RegistryCookie !in RegistryEntry(d)
    ensures RegistryVaryOnView in KeyHeaders(d) && KeyHeaders(d)[RegistryVaryOnView] == Some(d.headers[VaryOnViewHeader])
  {
  }

  /** Without vary-on-view the key headers are all live, and the stored entry is the
      pinned validators overlaid by the Vary entries: validators pinned there never
      reach the response key. */
  lemma ValidatorsPinnedOnlyInRegistry(d: ResponseData)
    requires VaryOnViewHeader !in d.headers
    ensures forall k :: k in KeyHeaders(d) ==> KeyHeaders(d)[k] == None
    ensures forall k :: k in RegistryEntry(d) <==> k in KeyHeaders(d) || k in PinnedValidators(d)
    ensures ETag in d.headers && RegistryETag !in KeyHeaders(d) ==>
              RegistryEntry(d)[RegistryETag] == Some(d.headers[ETag])
    ensures LastModified in d.headers && RegistryLastModified !in KeyHeaders(d) ==>
              RegistryEntry(d)[RegistryLastModified] == Some(d.headers[LastModified])
  {
    VaryEntriesOfShape(VaryNames(d));
  }

  /** A Vary name maps to HTTP_COOKIE exactly when it is "Cookie" in any case. */
  lemma MetaNameIsCookie(n: string)
    ensures MetaName(n) == RegistryCookie <==> Lower(n) == "cookie"
  {
    if MetaName(n) == RegistryCookie {
      CookieFromMetaName(n);
    }
    if Lower(n) == "cookie" {
      assert |n| == 6;
      forall i | 0 <= i < 6 ensures n[i] != '-' {
        assert LowerChar(n[i]) == "cookie"[i];
      }
      assert Replace(n, '-', '_') == n;
      UpperDeterminedByLower(n, "cookie");
    }
  }

  lemma UpperCookie()
    ensures Upper("cookie") == "COOKIE"
  {
    var u := Upper("cookie");
    assert u[0] == UpperChar('c') == 'C' && u[1] == UpperChar('o') == 'O' && u[2] == UpperChar('o') == 'O';
    assert u[3] == UpperChar('k') == 'K' && u[4] == UpperChar('i') == 'I' && u[5] == UpperChar('e') == 'E';
  }

  /** The META name HTTP_COOKIE only comes from "Cookie" in some case. */
  lemma CookieFromMetaName(n: string)
    requires MetaName(n) == RegistryCookie
    ensures Lower(n) == "cookie"
  {
    var r := Replace(n, '-', '_');
    assert Upper(r) == MetaName(n)[5..] == "COOKIE";
    assert |n| == |r| == 6;
    forall i | 0 <= i < 6 ensures n[i] != '-' {
      assert UpperChar(r[i]) == "COOKIE"[i];
    }
    assert r == n;
    UpperCookie();
    assert Upper(n) == Upper("cookie");
    LowerDeterminedByUpper(n, "cookie");
  }

  /** The Cookie test of `_should_update_cache` and the Cookie entry of the learned
      registry agree: the Vary header names Cookie iff HTTP_COOKIE is learned. */
  lemma VaryCookieAgreement(d: ResponseData)
    ensures HasVaryHeader(d, "Cookie") <==> RegistryCookie in VaryEntries(d)
  {
    VaryEntriesOfShape(VaryNames(d));
    assert Lower("Cookie") == "cookie";
    forall n ensures MetaName(n) == RegistryCookie <==> Lower(n) == "cookie" {
      MetaNameIsCookie(n);
    }
  }
}
