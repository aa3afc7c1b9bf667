# django-cache-middleware, modelled in Dafny

This project models the page cache of `django_cache_middleware`. The cache has two
caches in one store:

- the **registry**, under `cache_middleware.headers.<prefix>.<md5(host + path)>`,
  which records for each URL the request headers its responses vary on, with the
  `ETag` and `Last-Modified` pinned when nothing varies;
- the **responses**, under `cache_middleware.response.<prefix>.<url digest>.<header digest>`,
  one per variant.

The response phase (`UpdateCacheMiddleware.process_response`) decides whether to
store a response, learns its registry entry (`learn_cache_key`) and stores both. The
request phase (`FetchFromCacheMiddleware.process_request`, `process_view`,
`_process_headers`) reads the registry and then answers 403 to PURGE, 304 when the
client's validators match, or the stored response marked `X-From-Cache`. A view
decorated with `vary_on_view` adds its own key part: the `X-Vary-On-View` header,
built from `;`-terminated, percent-escaped fragments. That header replaces the
Cookie header in the key, and the middleware recomputes it before the view runs
through the view's `_vary_on_view` function. The decorators also provide
`add_cache_headers`, `cache_upstream` and `simple_response_cache`. The last is meant
to be a per-view cache keyed by a normal form of the view's arguments
(`HashableTuple`), but as written it raises on every call (see "## Findings"); the
model states that and proves the intended behaviour separately.

## Layout

| file | module | models |
|---|---|---|
| `wrappers.dfy` | `Wrappers` | `Option`, and `Outcome` for results that may raise |
| `text.dfy` | `Text` | ASCII `lower`/`upper`, `replace`, `strip`, `split`, and Django's `cc_delim_re` split |
| `sorting.dfy` | `Sorting` | Python's string order and `sorted()` of a set of names |
| `pyvalues.dfy` | `PyValues` | the Python values `HashableTuple` sees; `str()` of integers and booleans |
| `http.dfy` | `Http` | requests, responses, the cache store, views, and the foreign helpers (`Env`) |
| `cachekeys.dfy` | `CacheKeys` | `_generate_cache_header_key`, `generate_cache_key`, `get_cached_headers` |
| `validators.dfy` | `Validators` | `parse_http_date` (abstract), `not_modified`, `has_vary_header` |
| `learning.dfy` | `Learning` | `learn_cache_key` |
| `vary.dfy` | `Vary` | `urllib.quote`, `_quotify_function`, `_combine_functions`, `HashableTuple` |
| `decorators.dfy` | `Decorators` | `vary_on_view`, the four policies, `add_cache_headers`, `simple_response_cache`, `cache_upstream` |
| `middleware.dfy` | `Middleware` | `UpdateCacheMiddleware`, `FetchFromCacheMiddleware`, and the round trips between them |

Code that updates state in place is written as methods:

- the request's `_cache_update_cache`, `_cache_middleware_headers` and `_purging`
  attributes are fields of class `Http.Request`;
- response headers are a field of class `Http.HttpResponse`;
- the cache is class `Http.CacheStore`.

Each such method is proved equal to a function, and the properties are lemmas about
those functions: `OnRequest`, `OnView` and `Lookup` for the request phase,
`AfterResponse` for the response phase, `SimpleCached` for the intended simple cache. The
loops of `generate_cache_key`, `learn_cache_key` and `_combine_functions` are method
loops with invariants.

Foreign code is passed in as function-valued fields of `Http.Env`:

- MD5 and SHA-256 hex digests, `repr`, `iri_to_uri`;
- `USE_I18N`, `CACHE_MIDDLEWARE_SECONDS`;
- `parse_http_date`, `get_max_age`;
- the headers `patch_response_headers` and `add_never_cache_headers` leave.

The settings the middleware reads are a `Middleware.Config`.

The code raises in four places. Each becomes an `Outcome` error:

- `ImproperlyConfigured` in `_should_update_cache`;
- the missing `request.user` in `add_cache_headers`;
- the `TypeError` of comparing a parsed date with `None` in `not_modified`;
- the `NameError` of the unimported `HashableTuple` in `simple_response_cache`.

The date comparison follows the code, not the documented "fail closed" behaviour:

- `parse_http_date` returns `None` for an unparseable date;
- under Python 2, `None <= None` is true, so two unparseable dates count as "not
  modified";
- a datetime compared with `None` raises `TypeError`.

`Validators.DateLessEq` and `Validators.IfModifiedSinceBranch` state both cases.

## Model

| member | source | states |
|---|---|---|
| Text.CaseFoldingStable | django_cache_middleware/middleware/utils.py:175-176 | `lower()` and `upper()` are idempotent and absorb each other (`lower(upper(s)) == lower(s)`), and no letter of the other case survives them |
| Text.UpperDeterminedByLower | django_cache_middleware/middleware/utils.py:97 | names that agree case-insensitively, as `has_vary_header` compares them, have the same `upper()` |
| Text.LowerDeterminedByUpper | django_cache_middleware/middleware/utils.py:175-176 | names with the same `upper()` compare equal case-insensitively |
| Text.ReplaceEliminates | django_cache_middleware/middleware/utils.py:97 | `replace('-', '_')` leaves no `-`, keeps every other character in place, and applying it twice changes nothing more |
| Text.TrimLeftChar | django_cache_middleware/middleware/utils.py:150 | `lstrip(c)`: the result is a suffix of the input that does not start with `c`, and every character dropped was `c` |
| Text.TrimRightChar | django_cache_middleware/middleware/utils.py:150 | `rstrip(c)`: the result is a prefix of the input that does not end with `c`, and every character dropped was `c` |
| Text.StripCharEnclosed | django_cache_middleware/middleware/utils.py:150 | `strip('"')` leaves a tag with no quote at either end unchanged and removes exactly one added pair of quotes |
| Text.TrimLeftSpace | django_cache_middleware/middleware/utils.py:156 | `lstrip()`: the result is a suffix of the input that does not start with whitespace, and every character dropped was whitespace |
| Text.TrimRightSpace | django_cache_middleware/middleware/utils.py:156 | `rstrip()`: the result is a prefix of the input that does not end with whitespace, and every character dropped was whitespace |
| Text.IndexOf | django_cache_middleware/middleware/utils.py:156 | the first occurrence of the character, or the length when there is none: nothing before it matches |
| Text.Split | django_cache_middleware/middleware/utils.py:156 | `split(';')` never yields an empty list, and its first piece is everything before the first `;` |
| Sorting.SortedKeys | django_cache_middleware/middleware/utils.py:39 | `sorted()` of the registry names: exactly the set's members, strictly increasing in Python's string order |
| Sorting.SortedUnique | django_cache_middleware/middleware/utils.py:39 | any strictly increasing listing of a set is its sorted listing, so the order names were inserted in is irrelevant |
| Sorting.SortedKeysRemove | django_cache_middleware/middleware/utils.py:39-43 | removing a name from the set removes just that name from its sorted listing |
| PyValues.NatDigits | django_cache_middleware/decorators/utils.py:42 | `str()` of a natural number: non-empty, decimal digits only, a leading `0` only for zero |
| PyValues.Decimal | django_cache_middleware/decorators/utils.py:42 | `str()` of an integer contains only digits and `-` |
| PyValues.NatDigitsInjective | django_cache_middleware/decorators/utils.py:42 | different natural numbers have different decimal spellings |
| PyValues.DecimalInjective | django_cache_middleware/decorators/utils.py:42 | different integers have different `str()` |
| Http.CacheStore.Set | django_cache_middleware/middleware/utils.py:120 | `cache.set` replaces the key's entry with the new value and timeout and leaves the other keys alone |
| Http.CachedPage | django_cache_middleware/middleware/__init__.py:106-110 | a response is found exactly when the key holds a stored response, and it is that stored response |
| Http.CachedRegistry | django_cache_middleware/middleware/utils.py:53-58 | a registry entry is found exactly when the key holds one, and it is that stored entry |
| Http.CachedAfterSet | django_cache_middleware/middleware/utils.py:58 | `cache.get` after `cache.set`: the key just written reads back what was stored, as the same kind of value, and every other key reads as before |
| CacheKeys.DigestTextAppend | django_cache_middleware/middleware/utils.py:39-45 | visiting one more name appends that name's contribution: the pinned value, the live header, or nothing |
| CacheKeys.GenerateCacheKey | django_cache_middleware/middleware/utils.py:25-50 | the loop feeds the digest the contribution of each registry name in sorted order; the key is the response namespace, prefix, URL digest and that digest, with the language suffix |
| CacheKeys.FeedDigest | django_cache_middleware/middleware/utils.py:39-45 | the loop feeds the digest context, for each name in order, its pinned value, or the live header when unpinned and present |
| CacheKeys.GetCachedHeaders | django_cache_middleware/middleware/utils.py:53-58 | returns the registry entry stored under the path's registry key, and `None` when there is none |
| CacheKeys.ResponseKeyFollowsSortedOrder | django_cache_middleware/middleware/utils.py:39 | digesting any strictly increasing listing of the names gives the key, so two registry entries with the same items give one key whatever their insertion order |
| CacheKeys.KeyNamespaces | django_cache_middleware/middleware/utils.py:12-50 | registry keys start with `cache_middleware.headers.` and response keys with `cache_middleware.response.`, each followed by the prefix and the digest of host plus full path |
| CacheKeys.NamespacesDisjoint | django_cache_middleware/middleware/utils.py:12-50 | no registry key equals any response key, whatever the prefixes, requests and headers |
| CacheKeys.DigestTextDependsOnLiveNames | django_cache_middleware/middleware/utils.py:39-45 | two requests that agree on every unpinned name feed the digest the same text |
| CacheKeys.ResponseKeyDependsOnLiveNames | django_cache_middleware/middleware/utils.py:36-50 | the response key reads a request only through its host, full path, language and the headers named with `None` |
| CacheKeys.PinnedKeyIgnoresRequestHeaders | django_cache_middleware/middleware/utils.py:44-45 | when every value is pinned, the request's headers do not affect the key |
| CacheKeys.DigestTextSkipsSilentName | django_cache_middleware/middleware/utils.py:40-43 | an unpinned name the request does not carry contributes nothing to the digest |
| CacheKeys.AbsentLiveHeaderIsSilent | django_cache_middleware/middleware/utils.py:40-43 | such a name can be dropped from the registry entry without changing the key |
| CacheKeys.NamesAreNotDigested | django_cache_middleware/middleware/utils.py:39-45 | only values reach the digest: one pinned value gives the same key under any name |
| Validators.DateLessEq | django_cache_middleware/middleware/utils.py:160 | the date comparison raises exactly when one date parsed and the other did not |
| Validators.IfNoneMatchDecides | django_cache_middleware/middleware/utils.py:146-152 | with If-None-Match and a non-empty ETag, the answer is the quote-stripped equality of the two tags, and If-Modified-Since and Last-Modified are never read |
| Validators.NoValidatorsMeansModified | django_cache_middleware/middleware/utils.py:139-164 | without If-None-Match and If-Modified-Since, the answer is "modified" |
| Validators.IfModifiedSinceBranch | django_cache_middleware/middleware/utils.py:154-162 | no Last-Modified gives "modified"; the same string as the `;`-cut, stripped client date gives "not modified"; otherwise, when both dates parse, the answer is server ≤ client; two unparseable dates give "not modified"; one unparseable date raises |
| Validators.ETagRoundTrip | django_cache_middleware/middleware/utils.py:146-152 | a stored `"t"` answers If-None-Match `"s"` or bare `s` as not modified exactly when `s == t` |
| Validators.HasVaryHeaderIgnoresCase | django_cache_middleware/middleware/utils.py:167-176 | the Vary test gives the same answer for names that differ only in case, and is false without a Vary header |
| Learning.MetaName | django_cache_middleware/middleware/utils.py:97 | every META name starts with `HTTP_` |
| Learning.MetaNameIsNotVaryOnView | django_cache_middleware/middleware/utils.py:97-101 | no Vary name can produce the `X-Vary-On-View` registry name |
| Learning.VaryEntriesOfShape | django_cache_middleware/middleware/utils.py:94-97 | the Vary entries are exactly the META names of the Vary header's names, all unpinned |
| Learning.CollectVaryHeaders | django_cache_middleware/middleware/utils.py:94-97 | the loop over the comma-split Vary header builds exactly those entries |
| Learning.SplitKeyAndRegistry | django_cache_middleware/middleware/utils.py:99-115 | from the Vary entries, builds the key headers (vary-on-view pinned, Cookie removed) and the registry entry (the same, or the pinned validators overlaid by the Vary entries) |
| Learning.LearnCacheKey | django_cache_middleware/middleware/utils.py:61-124 | stores the registry entry under the path's registry key with the given timeout, changes no other key, and returns the response key of the key headers |
| Learning.KeyHeadersFromVary | django_cache_middleware/middleware/utils.py:95-104 | every Vary name is in the key headers unpinned, except Cookie when vary-on-view is present; nothing else is there apart from `X-Vary-On-View`, which is there exactly when the response has that header |
| Learning.VaryOnViewSupersedesCookie | django_cache_middleware/middleware/utils.py:99-104 | with X-Vary-On-View, its value is pinned, `HTTP_COOKIE` is in neither map, and the registry entry is the key headers |
| Learning.ValidatorsPinnedOnlyInRegistry | django_cache_middleware/middleware/utils.py:105-124 | without vary-on-view the key headers are all unpinned, the registry entry is the key headers plus the pinned validators, and the ETag and Last-Modified are pinned there unless Vary names them |
| Learning.MetaNameIsCookie | django_cache_middleware/middleware/utils.py:97 | a Vary name becomes `HTTP_COOKIE` exactly when it is "cookie" in some mix of cases |
| Learning.CookieFromMetaName | django_cache_middleware/middleware/utils.py:97 | the `HTTP_COOKIE` direction of that equivalence |
| Learning.VaryCookieAgreement | django_cache_middleware/middleware/utils.py:95-103 | `has_vary_header(response, 'Cookie')` holds exactly when the learned entries contain `HTTP_COOKIE` |
| Vary.HexValue | django_cache_middleware/decorators/utils.py:42 | a hex digit's value is below 16 |
| Vary.Quote | django_cache_middleware/decorators/utils.py:42 | `urllib.quote` output holds only safe characters and `%`, and is one to three times as long as the input |
| Vary.UnquoteQuote | django_cache_middleware/decorators/utils.py:42 | unescaping recovers the quoted string |
| Vary.QuoteKeepsSafe | django_cache_middleware/decorators/utils.py:42 | a string of safe characters is quoted as itself |
| Vary.QuoteInjective | django_cache_middleware/decorators/utils.py:42 | different byte strings quote differently |
| Vary.Fragment | django_cache_middleware/decorators/utils.py:39-43 | a fragment ends in `;` and contains no other `;` |
| Vary.DecodeFragmentInverts | django_cache_middleware/decorators/utils.py:42 | dropping the `;` and unquoting gives back `str(value)` |
| Vary.SplitJoin | django_cache_middleware/decorators/utils.py:46-52 | a concatenation of `;`-terminated pieces splits at `;` back into exactly those pieces |
| Vary.DecodeJoinedFragments | django_cache_middleware/decorators/utils.py:39-52 | a header made of fragments decodes to the values' `str`, in order |
| Vary.JoinedFragmentsInjective | django_cache_middleware/decorators/utils.py:39-52 | equal composed headers mean equal values under `str`, component by component |
| Vary.CallCombined | django_cache_middleware/decorators/utils.py:46-52 | the loop's result is each function's result appended in order, `''` for no functions |
| Vary.ConcatResultsAppend | django_cache_middleware/decorators/utils.py:46-52 | combining `fs + gs` gives the combined `fs` followed by the combined `gs`, so nested combinations flatten |
| Vary.CombinedQuotified | django_cache_middleware/decorators/utils.py:39-52 | combined quotified functions yield the joined fragments of their values, which decode back to the values' `str` |
| Vary.Normalize | django_cache_middleware/decorators/utils.py:14-32 | a list, tuple, set or dict becomes a tuple with one item per element or entry |
| Vary.NormalizeItems | django_cache_middleware/decorators/utils.py:18-21 | a list, tuple or set becomes the tuple of its normalised elements, in order; a dict becomes the tuple of `(key, normalised value)` pairs in sorted key order |
| Vary.DictFollowsKeyOrder | django_cache_middleware/decorators/utils.py:20-21 | a dict becomes its `(key, normalised value)` pairs in sorted key order, whatever listing of its keys is used |
| Vary.ContainersNormaliseAlike | django_cache_middleware/decorators/utils.py:16-19 | a list, a tuple and a set with the same elements normalise alike, and an existing HashableTuple is kept |
| Vary.ScalarsNormaliseToText | django_cache_middleware/decorators/utils.py:22-25 | for an `int` (within `sys.maxint`), `1`, `'1'` and `u'1'` normalise alike, as do `True` and `'True'`; a class or function becomes its `__name__` as a byte string, distinct from the same text passed as a string |
| Vary.LongsKeepRepr | django_cache_middleware/decorators/utils.py:24-27 | a `long` beyond `sys.maxint` fails the `int` test and keeps its `repr` (digits and `L`), so it never normalises like a string or an `int` |
| Vary.SignatureIgnoresSpelling | django_cache_middleware/decorators/utils.py:34-36 | the hash depends on the arguments only through their normal form |
| Decorators.AppendVaryFragment | django_cache_middleware/decorators/__init__.py:184-190 | on a 200 response, the header is created empty if absent and the fragment appended; other responses are untouched |
| Decorators.DecoratedResponse | django_cache_middleware/decorators/__init__.py:184-190 | the decorated view keeps status and body; a 200 response carries the old header followed by the fragment, and no other header changes; any other response is the view's own |
| Decorators.AttachedValue | django_cache_middleware/decorators/__init__.py:194-197 | the attached `_vary_on_view` yields the view's own value, if any, followed by the new fragment |
| Decorators.DecorationKeepsAgreement | django_cache_middleware/decorators/__init__.py:184-197 | decorating a plain view, or one whose header and `_vary_on_view` agree, yields a view whose header and `_vary_on_view` agree |
| Decorators.StackedAgrees | django_cache_middleware/decorators/__init__.py:181-199 | any stack of decorators over a plain view emits the header its `_vary_on_view` computes |
| Decorators.StackedValue | django_cache_middleware/decorators/__init__.py:181-199 | that value is the fragments of the value functions, in decoration order |
| Decorators.StackedHeaderDecodes | django_cache_middleware/decorators/__init__.py:184-197 | on a 200 response the stacked header decodes to each value's `str`, in order |
| Decorators.StackedStatus | django_cache_middleware/decorators/__init__.py:184-190 | stacking decorators never changes the status |
| Decorators.AuthenticationFragments | django_cache_middleware/decorators/__init__.py:203-221 | authentication and staff status give `True;` or `False;` |
| Decorators.StackedTwo | django_cache_middleware/decorators/__init__.py:194-197 | two stacked decorators emit the inner fragment, then the outer one |
| Decorators.AnonymousAuthThenStaff | django_cache_middleware/decorators/__init__.py:203-221 | staff status stacked on authentication status gives `False;False;` for an anonymous request |
| Decorators.UserTypeRange | django_cache_middleware/decorators/__init__.py:224-233 | the user type is 0, 1 or 2; 0 exactly for a user neither authenticated nor staff, 2 exactly for authenticated staff |
| Decorators.UserIdSeparates | django_cache_middleware/decorators/__init__.py:236-249 | authenticated users with different ids get different fragments |
| Decorators.AnonymousSharesIdZero | django_cache_middleware/decorators/__init__.py:236-249 | all anonymous users share the fragment `0;` |
| Decorators.AddCacheHeaders | django_cache_middleware/decorators/__init__.py:30-76 | raises exactly when anonymous-only is on and the request has no user |
| Decorators.AddCacheHeadersPassesThrough | django_cache_middleware/decorators/__init__.py:46-65 | non-GET requests, non-200 responses and secure requests get the response as called, with no header added: through `vary_on_authentication_status` exactly for a checked anonymous user on a view without `_vary_on_view`, else the view's own |
| Decorators.AnonymousVariesOnAuthentication | django_cache_middleware/decorators/__init__.py:46-74 | under anonymous-only, an anonymous user of a view without `_vary_on_view` gets the response tagged `False;` with cache headers patched |
| Decorators.AddCacheHeadersOnCacheableResponse | django_cache_middleware/decorators/__init__.py:67-74 | a checked, authenticated user gets never-cache headers; a checked anonymous user on a view with its own `_vary_on_view` gets the view's response with cache headers; without the check the headers are patched with the timeout or `CACHE_MIDDLEWARE_SECONDS` |
| Decorators.SimpleResponseCacheAsWritten | django_cache_middleware/decorators/__init__.py:97-104 | as written, the wrapped view raises `NameError` at the unimported `HashableTuple` and changes neither the request nor the cache |
| Decorators.SimpleCacheAlwaysRaises | django_cache_middleware/decorators/__init__.py:103 | for every request, argument list and cache, the code as written raises where the intended wrapper serves a response |
| Decorators.SimpleResponseCache | django_cache_middleware/decorators/__init__.py:97-122 | intended behaviour (with `HashableTuple` imported): serves and stores as `SimpleCached` says (the read is skipped when purging; a miss is stored only with a max-age; a hit is marked X-From-Cache) and always sets the update flag to False |
| Decorators.SimpleCacheRoundTrip | django_cache_middleware/decorators/__init__.py:106-117 | intended behaviour: once a miss has stored a response, the next call with the same arguments, from any request, is served it marked X-From-Cache, and the cache is unchanged |
| Decorators.SimpleCacheSkipsWithoutMaxAge | django_cache_middleware/decorators/__init__.py:111-115 | intended behaviour: a miss whose response has no max-age leaves the cache as it was |
| Decorators.VaryOnViewViewsShareSimpleKey | django_cache_middleware/decorators/__init__.py:102-104 | intended behaviour: every view `vary_on_view` returns is named `inner` of the decorators module, so two of them share simple-cache keys for the same arguments |
| Decorators.CacheUpstream | django_cache_middleware/decorators/__init__.py:145-149 | the response is the view's with headers patched, and the update flag is always False |
| Middleware.ShouldUpdateCache | django_cache_middleware/middleware/__init__.py:31-46 | raises exactly for anonymous-only with `Vary: Cookie` and no user; true exactly when the flag is True and not (anonymous-only with `Vary: Cookie` and a missing or authenticated user) |
| Middleware.Plan | django_cache_middleware/middleware/__init__.py:56-79 | patches exactly when the update check passes, the method is GET, the status 200, the body a string and the max-age not 0; the timeout is the max-age, else `CACHE_MIDDLEWARE_SECONDS` |
| Middleware.LearnedEntries | django_cache_middleware/middleware/__init__.py:79-81 | after learning and storing, the registry entry is under the path's key, the response under the learned key, both with the same timeout, and every other key is as it was |
| Middleware.UpdateCacheMiddleware.Prepare | django_cache_middleware/middleware/__init__.py:50-54 | sets Has-ESI when asked and removes an empty ETag |
| Middleware.UpdateCacheMiddleware.PatchAndStore | django_cache_middleware/middleware/__init__.py:77-81 | patches the headers; when the timeout is not 0, stores registry entry and response as `Learned` says |
| Middleware.UpdateCacheMiddleware.ProcessResponse | django_cache_middleware/middleware/__init__.py:48-83 | the exception, the edited response and the cache are those of `AfterResponse` |
| Middleware.StoreGate | django_cache_middleware/middleware/__init__.py:56-81 | a response is stored exactly when the update check passes, the method is GET, the status 200, the body a string and the timeout not 0 |
| Middleware.AfterResponseEntries | django_cache_middleware/middleware/__init__.py:56-83 | without a store the cache is unchanged; with one it is the learned cache |
| Middleware.NeverStored | django_cache_middleware/middleware/__init__.py:56-61 | HEAD requests, and requests whose flag is False or absent, never change the cache |
| Middleware.ZeroTimeoutNeverStored | django_cache_middleware/middleware/__init__.py:70-79 | a max-age of 0, or no max-age with `CACHE_MIDDLEWARE_SECONDS` 0, stores nothing |
| Middleware.AnonymousOnlyGate | django_cache_middleware/middleware/__init__.py:35-45 | under anonymous-only with `Vary: Cookie`, a missing user raises ImproperlyConfigured and leaves the cache alone, and an authenticated user is never stored |
| Middleware.Lookup | django_cache_middleware/middleware/__init__.py:98-122 | never stashes; goes on to the view exactly when it sets the flag True; raises exactly when it leaves the flag unset |
| Middleware.FetchFromCacheMiddleware.ProcessHeaders | django_cache_middleware/middleware/__init__.py:98-122 | its result and its flag and stash writes are those of `Lookup` |
| Middleware.FetchFromCacheMiddleware.ProcessRequest | django_cache_middleware/middleware/__init__.py:124-164 | its result and its flag and stash writes are those of `OnRequest`; `_purging` is never set |
| Middleware.FetchFromCacheMiddleware.ProcessView | django_cache_middleware/middleware/__init__.py:166-179 | its result and its flag and stash writes are those of `OnView` |
| Middleware.PurgeIsForbidden | django_cache_middleware/middleware/__init__.py:126-135 | every PURGE gets 403 with the flag False |
| Middleware.UncacheableRequestSkipsCache | django_cache_middleware/middleware/__init__.py:137-140 | other methods and secure requests go to the view with the flag False, whatever the cache holds |
| Middleware.RegistryFirst | django_cache_middleware/middleware/__init__.py:142-151 | a registry miss goes to the view with the flag True; an entry with vary-on-view is stashed, the flag is left unset, and no response is read |
| Middleware.PinnedETagAnswers304 | django_cache_middleware/middleware/__init__.py:153-161 | a pinned ETag matching If-None-Match answers 304 with the flag False, whatever responses are stored |
| Middleware.LookupCases | django_cache_middleware/middleware/__init__.py:98-122 | a miss goes to the view with the flag True; a hit whose own validators satisfy the client answers 304; any other hit is the response marked X-From-Cache; both hits set the flag False |
| Middleware.OnViewCases | django_cache_middleware/middleware/__init__.py:166-179 | without a stash or `_vary_on_view` nothing happens; otherwise the stash gains the view's value under `X-Vary-On-View` and the lookup runs on it |
| Middleware.PoppedEntryIsKeyHeaders | django_cache_middleware/middleware/__init__.py:156-157 | popping the validators from a stored entry without vary-on-view gives back the key headers, provided Vary names neither validator |
| Middleware.StoredLookups | django_cache_middleware/middleware/__init__.py:79-81 | after a store, the registry key holds the learned entry and the learned key holds the stored response |
| Middleware.PlainGetFindsPage | django_cache_middleware/middleware/__init__.py:153-164 | a GET without validators, whose registry entry leads to a stored response, is answered with it marked X-From-Cache |
| Middleware.FetchFindsStoredPage | django_cache_middleware/middleware/__init__.py:142-164 | round trip without vary-on-view: after a store, a later GET of the same variant without validators is answered from the cache with the flag False |
| Middleware.FetchStashesVaryOnView | django_cache_middleware/middleware/__init__.py:142-151 | round trip with vary-on-view, first half: the request phase stashes exactly the key headers |
| Middleware.ViewFindsVaryOnViewPage | django_cache_middleware/middleware/__init__.py:166-179 | second half: a view whose `_vary_on_view` yields the stored value finds the stored response |
| Middleware.CookieDoesNotSplitVaryOnView | django_cache_middleware/middleware/utils.py:99-104 | under vary-on-view, requests that differ only in their Cookie header read the same response key, even when Vary lists Cookie |
| Middleware.DecoratedViewRoundTrip | django_cache_middleware/decorators/__init__.py:184-197 | a `vary_on_view` view is stored under the value its header carries, and the same request through `process_view` finds that response |

## Left out

- Expiry: the store keeps each entry's timeout, but entries never expire; TTL is the cache backend's business.
- Concurrency: races between requests are not modelled. The last write to the shared store wins.
- The `None` defaults of `key_prefix` and `cache_timeout` in `generate_cache_key`, `get_cached_headers` and `learn_cache_key`: the middleware always passes its own values, which come from `Middleware.Config`.
- The digests, `iri_to_uri`, `get_max_age`, `patch_response_headers`, `add_never_cache_headers`, `repr` and `email.Utils.parsedate` are opaque functions in `Http.Env`. Digest injectivity is never assumed, so the round trips are proved by computing the same key, not by distinct keys differing.
- `_process_headers` has a `cache_key is None` branch. It cannot be taken, because `generate_cache_key` always returns a string, so it is not modelled.
- The PURGE allow branch is `if False:`, so the middleware never sets `_purging`. `Decorators.SimpleResponseCache` still reads `_purging` from the request.
- A registry value found under a response key counts as a miss, and so does a response found under a registry key.
- Decorators.UserOf reads a request without `user` as Django's AnonymousUser. The policies would raise `AttributeError`; `Decorators.AddCacheHeaders` does model that error.
- Vary.Str: value functions return a bool, an int or a byte string. Other objects, whose `str()` is their own business, and non-ASCII unicode, whose `str()` raises, are not modelled.
- Text.SplitCommas: its contract states only the number of names, not their exact text.
- Vary.Normalize: an `int` and a `long` are told apart by value, as on a 64-bit build (`sys.maxint` is 2^63 - 1). A `long` of small value, such as `1L`, is treated as an `int`, although the code would keep it and hash its `repr`.
- Vary.Normalize: byte strings are taken as ASCII. `force_unicode` decodes a byte string as UTF-8 and raises `DjangoUnicodeDecodeError` on invalid bytes; neither is modelled. So a non-ASCII UTF-8 byte string is not identified with the unicode string it decodes to, and invalid bytes normalise instead of raising.
- `HashableTuple`: dictionary keys are byte strings and are kept raw, not normalised. A set is given in its iteration order, which Python does not fix.
- `method_decorator` (the `method=True` form) and calling a decorator with the view in place of `cache_timeout` are not modelled. `functools.wraps` is modelled only as keeping the view's `__module__` and `__name__`, not its copy of `__dict__`. That copy lets `_vary_on_view` survive the `add_cache_headers`, `cache_upstream` and `simple_response_cache` wrappers, so the middleware still sees it on the outer view.
- Response objects passed through the decorators are values. Only `Decorators.AppendVaryFragment` models the in-place header edit.
- Middleware.DecoratedViewRoundTrip requires that `patch_response_headers` keeps `X-Vary-On-View`. The real helper does, but that helper is opaque here.
- `middleware/debug.py`, `middleware/cookies.py`, `middleware/admin.py` and `hack.py` are not part of this model.
- The `CacheMiddleware` class only combines the two middlewares; it adds no behaviour of its own.

## Findings

| source | as written | input that shows it | evidently intended | confidence | as-written member | corrected member |
|---|---|---|---|---|---|---|
| django_cache_middleware/decorators/__init__.py:103 | the wrapped view calls `HashableTuple`, which the module never imports (line 7 imports only `_combine_functions` and `_quotify_function`), so every call raises `NameError` before the cache is read, the view runs or the update flag is set | any call, e.g. a view with no arguments and an empty cache | `HashableTuple` imported from `decorators/utils.py`: hits served marked X-From-Cache, misses rendered and stored for their max-age, the flag set to False | high; not executed | Decorators.SimpleResponseCacheAsWritten, Decorators.SimpleCacheAlwaysRaises | Decorators.SimpleResponseCache, Decorators.SimpleCacheRoundTrip |
