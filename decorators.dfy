/** The view decorators of decorators/__init__.py: `vary_on_view` and its four stock
    policies, `add_cache_headers`, `simple_response_cache` and `cache_upstream`. */
module Decorators {
  import opened Wrappers
  import opened PyValues
  import opened Http
  import opened Vary

  /** `vary_on_view` does not copy the wrapped view's identity: the view it returns is
      the function `inner` of this module. */
  const DecoratorsModule := "django_cache_middleware.decorators"
  const InnerName := "inner"

  /** The empty-or-present X-Vary-On-View value of a response. */
  function VaryOnViewValue(d: ResponseData): string
  {
    if VaryOnViewHeader in d.headers then d.headers[VaryOnViewHeader] else ""
  }

  /** The response `inner` returns: a 200 response gets `fragment` appended to its
      X-Vary-On-View header (created empty when absent); any other is untouched. */
  function WithVaryFragment(d: ResponseData, fragment: string): ResponseData
  {
    if d.status == 200 then d.(headers := d.headers[VaryOnViewHeader := VaryOnViewValue(d) + fragment])
    else d
  }

  /** The header step of `inner`, on the response object itself. */
  method AppendVaryFragment(response: HttpResponse, fragment: string)
    modifies response
    ensures response.Data() == WithVaryFragment(old(response.Data()), fragment)
  {
    if response.status == 200 {
      if VaryOnViewHeader !in response.headers {
        response.headers := response.headers[VaryOnViewHeader := ""];
      }
      response.headers := response.headers[VaryOnViewHeader := response.headers[VaryOnViewHeader] + fragment];
    }
  }

  /** `vary_on_view(g)(view)`: renders like `view` and tags the response; its
      `_vary_on_view` is `g` quotified, combined after the view's own when it has one. */
  function VaryOnView(g: ValueFn, view: View): View
  {
    View(DecoratorsModule, InnerName,
         (r: RequestInfo, a: ViewArgs) => WithVaryFragment(view.render(r, a), Fragment(g(r, a))),
         Some(match view.varyOnView
              case Some(f) => Combine([f, Quotify(g)])
              case None => Quotify(g)))
  }

  /** The decorated view's response: same status and body; a 200 response carries the
      old header value followed by the new fragment and no other header changes; any
      other response is the view's own. */
  lemma DecoratedResponse(g: ValueFn, view: View, r: RequestInfo, a: ViewArgs)
    ensures var d, e := view.render(r, a), VaryOnView(g, view).render(r, a);
      && e.status == d.status && e.content == d.content && e.isString == d.isString
      && (d.status != 200 ==> e == d)
      && (d.status == 200 ==>
            && VaryOnViewHeader in e.headers
            && e.headers[VaryOnViewHeader] == VaryOnViewValue(d) + Fragment(g(r, a))
            && forall h :: h != VaryOnViewHeader ==>
                 (h in e.headers <==> h in d.headers) && (h in d.headers ==> e.headers[h] == d.headers[h]))
  {
  }

  /** The decorated view's `_vary_on_view`: the fragment follows the value of the
      view's own `_vary_on_view`, when there is one. */
  lemma AttachedValue(g: ValueFn, view: View, r: RequestInfo, a: ViewArgs)
    ensures VaryOnView(g, view).varyOnView.Some?
    ensures VaryOnView(g, view).varyOnView.value(r, a)
         == (if view.varyOnView.Some? then view.varyOnView.value(r, a) else "") + Fragment(g(r, a))
  {
    assert Quotify(g)(r, a) == Fragment(g(r, a));
    if view.varyOnView.Some? {
      var f := view.varyOnView.value;
      var fs := [f, Quotify(g)];
      assert fs[..1] == [f] && [f][..0] == [];
      assert ConcatResults([f], r, a) == ConcatResults([], r, a) + f(r, a);
      assert ConcatResults(fs, r, a) == ConcatResults([f], r, a) + Quotify(g)(r, a);
      assert Combine(fs)(r, a) == ConcatResults(fs, r, a);
    }
  }

  /** The view's header and its `_vary_on_view` agree at this call: what Update
      stores and what Fetch recomputes are the same value. */
  predicate AgreesAt(view: View, r: RequestInfo, a: ViewArgs)
  {
    var d := view.render(r, a);
    view.varyOnView.Some? &&
    (d.status == 200 ==> VaryOnViewHeader in d.headers && d.headers[VaryOnViewHeader] == view.varyOnView.value(r, a))
  }

  /** A plain view: no `_vary_on_view`, and it does not set the header itself. */
  predicate Plain(view: View, r: RequestInfo, a: ViewArgs)
  {
    view.varyOnView.None? && VaryOnViewHeader !in view.render(r, a).headers
  }

  /** Decorating a plain view, or decorating again a view whose header and
      `_vary_on_view` agree, yields a view whose header and `_vary_on_view` agree. */
  lemma DecorationKeepsAgreement(g: ValueFn, view: View, r: RequestInfo, a: ViewArgs)
    requires Plain(view, r, a) || AgreesAt(view, r, a)
    ensures AgreesAt(VaryOnView(g, view), r, a)
  {
    DecoratedResponse(g, view, r, a);
    AttachedValue(g, view, r, a);
  }

  /** `vary_on_view(gs[n-1])(... vary_on_view(gs[0])(view))`: `gs[0]` is the
      decorator written nearest the view. */
  function Stack(gs: seq<ValueFn>, view: View): View
  {
    if gs == [] then view else VaryOnView(gs[|gs| - 1], Stack(gs[..|gs| - 1], view))
  }

  lemma {:induction false} StackedAgrees(gs: seq<ValueFn>, view: View, r: RequestInfo, a: ViewArgs)
    requires |gs| >= 1 && Plain(view, r, a)
    ensures AgreesAt(Stack(gs, view), r, a)
  {
    var init, g := gs[..|gs| - 1], gs[|gs| - 1];
    if init != [] {
      StackedAgrees(init, view, r, a);
    }
    DecorationKeepsAgreement(g, Stack(init, view), r, a);
  }

  /** A stack of vary-on-view decorators over a plain view: the header it emits on a
      200 response equals its `_vary_on_view` value, which is the fragments of the
      values in decoration order. */
  lemma {:induction false} StackedValue(gs: seq<ValueFn>, view: View, r: RequestInfo, a: ViewArgs)
    requires |gs| >= 1 && Plain(view, r, a)
    ensures AgreesAt(Stack(gs, view), r, a)
    ensures Stack(gs, view).varyOnView.value(r, a) == Join(Fragments(ValuesAt(gs, r, a)))
  {
    StackedAgrees(gs, view, r, a);
    var init, g := gs[..|gs| - 1], gs[|gs| - 1];
    var below := Stack(init, view);
    assert Stack(gs, view) == VaryOnView(g, below);
    AttachedValue(g, below, r, a);
    JoinedFragmentsSnoc(gs, r, a);
    if init == [] {
      assert below.varyOnView.None?;
    } else {
      StackedValue(init, view, r, a);
    }
  }

  /** So the stacked header decodes back to each value's `str`, in decoration order. */
  lemma StackedHeaderDecodes(gs: seq<ValueFn>, view: View, r: RequestInfo, a: ViewArgs)
    requires |gs| >= 1 && Plain(view, r, a)
    requires view.render(r, a).status == 200
    ensures var d := Stack(gs, view).render(r, a);
      VaryOnViewHeader in d.headers && Decode(d.headers[VaryOnViewHeader]) == Strs(ValuesAt(gs, r, a))
  {
    StackedValue(gs, view, r, a);
    StackedStatus(gs, view, r, a);
    DecodeJoinedFragments(ValuesAt(gs, r, a));
  }

  lemma {:induction false} StackedStatus(gs: seq<ValueFn>, view: View, r: RequestInfo, a: ViewArgs)
    ensures Stack(gs, view).render(r, a).status == view.render(r, a).status
  {
    if gs != [] {
      StackedStatus(gs[..|gs| - 1], view, r, a);
      DecoratedResponse(gs[|gs| - 1], Stack(gs[..|gs| - 1], view), r, a);
    }
  }

  // ---------------------------------------------------------------------------
  // The stock policies

  /** `request.user`, read as Django's AnonymousUser when the request has none. */
  function UserOf(r: RequestInfo): User
  {
    if r.user.Some? then r.user.value else AnonymousUser
  }

  /** `vary_on_authentication_status`'s value: `request.user.is_authenticated()`. */
  function AuthenticationStatus(r: RequestInfo, a: ViewArgs): Scalar
  {
    Bool(UserOf(r).authenticated)
  }

  /** `vary_on_staff_status`'s value: `request.user.is_staff`. */
  function StaffStatus(r: RequestInfo, a: ViewArgs): Scalar
  {
    Bool(UserOf(r).isStaff)
  }

  /** `vary_on_user_type`'s value: `int(is_authenticated()) + int(is_staff)`. */
  function UserType(r: RequestInfo, a: ViewArgs): Scalar
  {
    Int((if UserOf(r).authenticated then 1 else 0) + (if UserOf(r).isStaff then 1 else 0))
  }

  /** `vary_on_user_id`'s value: the user's id, or 0 for an anonymous user. */
  function UserId(r: RequestInfo, a: ViewArgs): Scalar
  {
    if UserOf(r).authenticated then Int(UserOf(r).id) else Int(0)
  }

  function VaryOnAuthenticationStatus(view: View): View { VaryOnView(AuthenticationStatus, view) }
  function VaryOnStaffStatus(view: View): View { VaryOnView(StaffStatus, view) }
  function VaryOnUserType(view: View): View { VaryOnView(UserType, view) }
  function VaryOnUserId(view: View): View { VaryOnView(UserId, view) }

  lemma QuoteOfWords()
    ensures Quote("True") == "True" && Quote("False") == "False" && Quote("0") == "0"
  {
    QuoteKeepsSafe("True");
    QuoteKeepsSafe("False");
    QuoteKeepsSafe("0");
  }

  /** Authenticated users share the fragment "True;", anonymous users "False;". */
  lemma AuthenticationFragments(r: RequestInfo, a: ViewArgs)
    ensures Quotify(AuthenticationStatus)(r, a) == if UserOf(r).authenticated then "True;" else "False;"
    ensures Quotify(StaffStatus)(r, a) == if UserOf(r).isStaff then "True;" else "False;"
  {
    BoolFragments();
    assert Quotify(AuthenticationStatus)(r, a) == Fragment(AuthenticationStatus(r, a));
    assert Quotify(StaffStatus)(r, a) == Fragment(StaffStatus(r, a));
  }

  /** The fragments of the two booleans. */
  lemma BoolFragments()
    ensures Fragment(Bool(true)) == "True;" && Fragment(Bool(false)) == "False;"
  {
    QuoteOfWords();
  }

  /** Two stacked decorators: the outer fragment follows the inner one. */
  lemma StackedTwo(g1: ValueFn, g2: ValueFn, view: View, r: RequestInfo, a: ViewArgs)
    ensures VaryOnView(g2, VaryOnView(g1, view)).varyOnView.value(r, a)
         == (if view.varyOnView.Some? then view.varyOnView.value(r, a) else "") + Fragment(g1(r, a)) + Fragment(g2(r, a))
  {
    AttachedValue(g1, view, r, a);
    AttachedValue(g2, VaryOnView(g1, view), r, a);
  }

  /** Staff status stacked on authentication status: an anonymous request emits
      "False;False;". */
  lemma AnonymousAuthThenStaff(view: View, r: RequestInfo, a: ViewArgs)
    requires UserOf(r) == AnonymousUser
    ensures VaryOnStaffStatus(VaryOnAuthenticationStatus(view)).varyOnView.value(r, a)
         == (if view.varyOnView.Some? then view.varyOnView.value(r, a) else "") + "False;False;"
  {
    var base := if view.varyOnView.Some? then view.varyOnView.value(r, a) else "";
    StackedTwo(AuthenticationStatus, StaffStatus, view, r, a);
    AnonymousFragments(r, a);
    assert base + "False;" + "False;" == base + "False;False;";
  }

  /** An anonymous request is neither authenticated nor staff. */
  lemma AnonymousFragments(r: RequestInfo, a: ViewArgs)
    requires UserOf(r) == AnonymousUser
    ensures Fragment(AuthenticationStatus(r, a)) == "False;" && Fragment(StaffStatus(r, a)) == "False;"
  {
    assert AuthenticationStatus(r, a) == StaffStatus(r, a) == Bool(false);
    BoolFragments();
  }

  /** The user type is 0 (anonymous), 1 (regular user) or 2 (staff). */
  lemma UserTypeRange(r: RequestInfo, a: ViewArgs)
    ensures 0 <= UserType(r, a).i <= 2
    ensures UserType(r, a).i == 0 <==> !UserOf(r).authenticated && !UserOf(r).isStaff
    ensures UserType(r, a).i == 2 <==> UserOf(r).authenticated && UserOf(r).isStaff
  {
  }

  /** Authenticated users with different ids get different fragments. */
  lemma UserIdSeparates(r1: RequestInfo, r2: RequestInfo, a: ViewArgs)
    requires UserOf(r1).authenticated && UserOf(r2).authenticated
    requires UserOf(r1).id != UserOf(r2).id
    ensures Quotify(UserId)(r1, a) != Quotify(UserId)(r2, a)
  {
    var f1, f2 := Fragment(UserId(r1, a)), Fragment(UserId(r2, a));
    if f1 == f2 {
      var q1, q2 := Quote(Str(UserId(r1, a))), Quote(Str(UserId(r2, a)));
      assert q1 == f1[..|f1| - 1] == f2[..|f2| - 1] == q2;
      QuoteInjective(Str(UserId(r1, a)), Str(UserId(r2, a)));
      DecimalInjective(UserOf(r1).id, UserOf(r2).id);
    }
  }

  lemma ZeroFragment()
    ensures Fragment(Int(0)) == "0;"
  {
    assert Str(Int(0)) == Decimal(0) == "0";
    QuoteOfWords();
  }

  /** Every anonymous request shares its fragment with the user whose id is 0. */
  lemma AnonymousSharesIdZero(r1: RequestInfo, r2: RequestInfo, a: ViewArgs)
    requires !UserOf(r1).authenticated
    requires UserOf(r2).authenticated && UserOf(r2).id == 0
    ensures Quotify(UserId)(r1, a) == Quotify(UserId)(r2, a) == "0;"
  {
    ZeroFragment();
    assert Quotify(UserId)(r1, a) == Fragment(UserId(r1, a)) && UserId(r1, a) == Int(0);
    assert Quotify(UserId)(r2, a) == Fragment(UserId(r2, a)) && UserId(r2, a) == Int(0);
  }

  // ---------------------------------------------------------------------------
  // add_cache_headers

  /** The timeout `patch_response_headers` uses: the given one, else
      `CACHE_MIDDLEWARE_SECONDS`. */
  function TimeoutOr(env: Env, cacheTimeout: Option<int>): int
  {
    if cacheTimeout.Some? then cacheTimeout.value else env.middlewareSeconds
  }

  /** `add_cache_headers(cache_timeout)(view)` called with `r` and `a`, under
      `CACHE_MIDDLEWARE_ANONYMOUS_ONLY == anonymousOnly`. Reading the user of a
      request without one raises. */
  function AddCacheHeaders(env: Env, anonymousOnly: bool, cacheTimeout: Option<int>,
                           view: View, r: RequestInfo, a: ViewArgs): (out: Outcome<ResponseData>)
    ensures out.Raised? <==> anonymousOnly && r.user.None?
  {
    if anonymousOnly && r.user.None? then Raised(MissingUser)
    else
      var authenticated := if anonymousOnly then Some(r.user.value.authenticated) else None;
      var response :=
        if authenticated == Some(false) && view.varyOnView.None? then VaryOnAuthenticationStatus(view).render(r, a)
        else view.render(r, a);
      if r.verb != "GET" || response.status != 200 || r.secure then Done(response)
      else if authenticated == Some(true) then Done(NeverCacheHeaders(env, response))
      else Done(PatchHeaders(env, response, TimeoutOr(env, cacheTimeout)))
  }

  /** Requests that are not GET, responses that are not 200, and secure requests get
      the response of the view as called, with no header added: the view itself, or
      `vary_on_authentication_status` of it for a checked anonymous user on a view
      without `_vary_on_view`. */
  lemma AddCacheHeadersPassesThrough(env: Env, anonymousOnly: bool, t: Option<int>, view: View, r: RequestInfo, a: ViewArgs)
    requires !anonymousOnly || r.user.Some?
    requires r.verb != "GET" || r.secure || view.render(r, a).status != 200
    ensures AddCacheHeaders(env, anonymousOnly, t, view, r, a)
         == Done(if anonymousOnly && !r.user.value.authenticated && view.varyOnView.None?
                 then VaryOnAuthenticationStatus(view).render(r, a)
                 else view.render(r, a))
  {
    DecoratedResponse(AuthenticationStatus, view, r, a);
  }

  /** With anonymous-only caching, an anonymous user reaching a view without
      `_vary_on_view` is served through `vary_on_authentication_status`: the cache
      headers are patched onto a response tagged "False;". */
  lemma AnonymousVariesOnAuthentication(env: Env, t: Option<int>, view: View, r: RequestInfo, a: ViewArgs)
    requires r.user.Some? && !r.user.value.authenticated && Plain(view, r, a)
    requires r.verb == "GET" && !r.secure && view.render(r, a).status == 200
    ensures var out := AddCacheHeaders(env, true, t, view, r, a);
      var tagged := VaryOnAuthenticationStatus(view).render(r, a);
      && out == Done(PatchHeaders(env, tagged, TimeoutOr(env, t)))
      && tagged.headers[VaryOnViewHeader] == "False;"
  {
    DecoratedResponse(AuthenticationStatus, view, r, a);
    AuthenticationFragments(r, a);
  }

  /** A checked, authenticated user's 200 GET response is marked never-cache; a
      checked anonymous user on a view with its own `_vary_on_view` gets the view's
      response with cache headers; when anonymous-only is off the user is never read
      and the headers are patched. */
  lemma AddCacheHeadersOnCacheableResponse(env: Env, anonymousOnly: bool, t: Option<int>, view: View, r: RequestInfo, a: ViewArgs)
    requires r.verb == "GET" && !r.secure && view.render(r, a).status == 200
    ensures anonymousOnly && r.user.Some? && r.user.value.authenticated ==>
              AddCacheHeaders(env, anonymousOnly, t, view, r, a) == Done(NeverCacheHeaders(env, view.render(r, a)))
    ensures anonymousOnly && r.user.Some? && !r.user.value.authenticated && view.varyOnView.Some? ==>
              AddCacheHeaders(env, anonymousOnly, t, view, r, a) == Done(PatchHeaders(env, view.render(r, a), TimeoutOr(env, t)))
    ensures !anonymousOnly ==>
              AddCacheHeaders(env, anonymousOnly, t, view, r, a) == Done(PatchHeaders(env, view.render(r, a), TimeoutOr(env, t)))
  {
  }

  // ---------------------------------------------------------------------------
  // simple_response_cache and cache_upstream

  /** `module.name + ':' + HashableTuple((args, kwargs)).hash`. */
  function SimpleCacheKey(env: Env, view: View, va: ViewArgs): string
  {
    view.moduleName + "." + view.name + ":" + Signature(env, va)
  }

  /** What `simple_response_cache` serves and the cache it leaves. */
  datatype Served = Served(response: ResponseData, entries: map<string, Entry>)

  /** `simple_response_cache(view)` called with `r` and `va`, as the code is written:
      `HashableTuple` is used to build the key but the module never imports it, so
      every call raises `NameError` before the cache is read, the view is called or
      the update flag is set. */
  function SimpleCachedAsWritten(env: Env, view: View, r: RequestInfo, va: ViewArgs, purging: bool,
                                 entries: map<string, Entry>): (out: Outcome<Served>)
    ensures out.Raised? && out.error == NameError
  {
    Raised(NameError)
  }

  /** The wrapped view as written, on the request and cache objects: it raises and
      changes neither. */
  method SimpleResponseCacheAsWritten(env: Env, view: View, request: Request, va: ViewArgs, cache: CacheStore)
    returns (out: Outcome<ResponseData>)
    ensures out.Raised? && SimpleCachedAsWritten(env, view, request.info, va, request.purging, cache.entries) == Raised(out.error)
  {
    out := Raised(NameError);
  }

  /** The discrepancy: whatever the request, arguments and cache, the wrapped view as
      written never serves a response, while the intended one always does (and keeps
      the middleware from storing it). */
  lemma SimpleCacheAlwaysRaises(env: Env, view: View, r: RequestInfo, va: ViewArgs, purging: bool,
                                entries: map<string, Entry>)
    ensures SimpleCachedAsWritten(env, view, r, va, purging, entries) == Raised(NameError)
    ensures SimpleCachedAsWritten(env, view, r, va, purging, entries) != Done(SimpleCached(env, view, r, va, purging, entries))
  {
  }

  /** The intended `simple_response_cache(view)` called with `r` and `va` (with
      `HashableTuple` imported): a purging request skips
      the read; a hit is served with X-From-Cache; a miss renders the view and stores
      the response for its max-age, when it has one. */
  function SimpleCached(env: Env, view: View, r: RequestInfo, va: ViewArgs, purging: bool,
                        entries: map<string, Entry>): Served
  {
    var key := SimpleCacheKey(env, view, va);
    var hit := if purging then None else CachedPage(entries, key);
    if hit.Some? then Served(WithTrueHeader(hit.value, FromCache), entries)
    else
      var response := view.render(r, va);
      var maxAge := env.maxAge(response);
      Served(response, if maxAge.Some? then entries[key := Entry(Page(response), maxAge.value)] else entries)
  }

  /** The intended `simple_response_cache(view)(request, *args, **kwargs)`. The request's update
      flag is set to False, so the middleware does not store the response too. */
  method SimpleResponseCache(env: Env, view: View, request: Request, va: ViewArgs, cache: CacheStore)
    returns (response: ResponseData)
    modifies request, cache
    ensures var s := SimpleCached(env, view, request.info, va, request.purging, old(cache.entries));
      response == s.response && cache.entries == s.entries
    ensures request.updateFlag == Some(false)
    ensures request.stashed == old(request.stashed) && request.purging == old(request.purging)
  {
    var key := view.moduleName + "." + view.name + ":" + env.sha256(env.repr(HashableKey(va)));
    var cached: Option<CacheValue> := None;
    if !request.purging {
      cached := cache.Get(key);
    }
    if cached.Some? && cached.value.Page? {
      response := WithTrueHeader(cached.value.page, FromCache);
    } else {
      response := view.render(request.info, va);
      var maxAge := env.maxAge(response);
      if maxAge.Some? {
        cache.Set(key, Page(response), maxAge.value);
      }
    }
    request.updateFlag := Some(false);
  }

  /** The simple cache's round trip: once a miss has stored a response (it had a
      max-age), the next non-purging call with the same arguments is served that
      response, marked X-From-Cache, whatever the request. */
  lemma SimpleCacheRoundTrip(env: Env, view: View, r1: RequestInfo, r2: RequestInfo, va: ViewArgs,
                             purging: bool, entries: map<string, Entry>)
    requires purging || CachedPage(entries, SimpleCacheKey(env, view, va)).None?
    requires env.maxAge(view.render(r1, va)).Some?
    ensures var first := SimpleCached(env, view, r1, va, purging, entries);
      && first.response == view.render(r1, va)
      && SimpleCached(env, view, r2, va, false, first.entries)
         == Served(WithTrueHeader(first.response, FromCache), first.entries)
  {
  }

  /** A miss whose response has no max-age leaves the cache as it was. */
  lemma SimpleCacheSkipsWithoutMaxAge(env: Env, view: View, r: RequestInfo, va: ViewArgs,
                                      entries: map<string, Entry>)
    requires CachedPage(entries, SimpleCacheKey(env, view, va)).None?
    requires env.maxAge(view.render(r, va)).None?
    ensures SimpleCached(env, view, r, va, false, entries) == Served(view.render(r, va), entries)
  {
  }

  /** The key names the view by module and name only; every view returned by
      `vary_on_view` is named `inner` of the decorators module, so two different
      vary-on-view views share their simple-cache keys for the same arguments. */
  lemma VaryOnViewViewsShareSimpleKey(env: Env, g1: ValueFn, v1: View, g2: ValueFn, v2: View, va: ViewArgs)
    ensures SimpleCacheKey(env, VaryOnView(g1, v1), va) == SimpleCacheKey(env, VaryOnView(g2, v2), va)
    ensures v1.moduleName != DecoratorsModule ==> VaryOnView(g1, v1).moduleName != v1.moduleName
  {
  }

  /** `cache_upstream(cache_timeout)(view)` called with the request: the response
      gets cache headers, and the update flag is set to False so the middleware
      never stores it. */
  method CacheUpstream(env: Env, cacheTimeout: Option<int>, view: View, request: Request, va: ViewArgs)
    returns (response: ResponseData)
    modifies request
    ensures response == PatchHeaders(env, view.render(request.info, va), TimeoutOr(env, cacheTimeout))
    ensures request.updateFlag == Some(false)
    ensures request.stashed == old(request.stashed) && request.purging == old(request.purging)
  {
    response := view.render(request.info, va);
    response := PatchHeaders(env, response, TimeoutOr(env, cacheTimeout));
    request.updateFlag := Some(false);
  }
}
