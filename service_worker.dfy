/**
 * The service worker's fetch interceptor (public/sw.js): classification of a
 * request path into a resource category, the per-category time-to-live table,
 * and the per-request decision between serving a fresh cached copy, refetching
 * and storing a stamped copy, and the fallbacks on network failure.
 *
 * The browser's cache storage is a class with one map per named cache
 * (`static-v1`, `dynamic-v1`); the clock and the network's answer are
 * parameters of each request.
 */
module ServiceWorker {
  import opened Wrappers
  import opened Strings

  const STATIC_CACHE: string := "static-v1"
  const DYNAMIC_CACHE: string := "dynamic-v1"

  datatype ResourceType = Images | Scripts | Styles | Api | Html

  /** The property name of `CACHE_STRATEGIES` that `getResourceType` returns. */
  function Key(t: ResourceType): string {
    match t
    case Images => "images"
    case Scripts => "scripts"
    case Styles => "styles"
    case Api => "api"
    case Html => "html"
  }

  /** `CACHE_STRATEGIES`: the `maxAge` of each category, in milliseconds. */
  const CacheStrategies: map<string, nat> := map[
    "images" := 7 * 24 * 60 * 60 * 1000,
    "scripts" := 30 * 24 * 60 * 60 * 1000,
    "styles" := 7 * 24 * 60 * 60 * 1000,
    "api" := 5 * 60 * 1000,
    "html" := 60 * 60 * 1000
  ]

  /** `CACHE_STRATEGIES.html.maxAge`, the fallback for a category missing from the table. */
  const FallbackMaxAge: nat := CacheStrategies["html"]

  const ImageExtensions: seq<string> := [".jpg", ".jpeg", ".png", ".gif", ".webp", ".svg"]
  const ScriptExtensions: seq<string> := [".js", ".mjs"]

  /** The path ends, ignoring ASCII case, with one of `suffixes`. */
  predicate EndsWithAnyIgnoreCase(path: string, suffixes: seq<string>) {
    exists i :: 0 <= i < |suffixes| && EndsWithIgnoreCase(path, suffixes[i])
  }

  /** `getResourceType`: extension tests first (case-insensitive), then the api substrings. */
  function GetResourceType(pathname: string): (r: ResourceType)
    ensures r == Images <==> EndsWithAnyIgnoreCase(pathname, ImageExtensions)
    ensures r == Scripts ==> EndsWithAnyIgnoreCase(pathname, ScriptExtensions)
    ensures r == Styles ==> EndsWithIgnoreCase(pathname, ".css")
    ensures r == Api ==> Contains(pathname, "/api/") || Contains(pathname, "/functions/")
    ensures r == Html ==>
      && !EndsWithIgnoreCase(pathname, ".css")
      && !Contains(pathname, "/api/") && !Contains(pathname, "/functions/")
  {
    if EndsWithAnyIgnoreCase(pathname, ImageExtensions) then Images
    else if EndsWithAnyIgnoreCase(pathname, ScriptExtensions) then Scripts
    else if EndsWithIgnoreCase(pathname, ".css") then Styles
    else if Contains(pathname, "/api/") || Contains(pathname, "/functions/") then Api
    else Html
  }

  /** `CACHE_STRATEGIES[resourceType] || CACHE_STRATEGIES.html`, as its `maxAge`. */
  function MaxAge(t: ResourceType): (m: nat)
    ensures Key(t) in CacheStrategies && m == CacheStrategies[Key(t)]
    ensures 300000 <= m <= 2592000000
    ensures m == 300000 <==> t == Api
  {
    if Key(t) in CacheStrategies then CacheStrategies[Key(t)] else FallbackMaxAge
  }

  // ---------------------------------------------------------------------
  // Requests, responses and the network

  /** A request URL: the full address (the cache key) and its path. */
  datatype Url = Url(href: string, pathname: string)

  datatype Request = Request(httpMethod: string, url: Url)

  /**
   * An HTTP response. `cachedDate` is the `sw-cached-date` header, held as the
   * millisecond time it encodes; `headers` are the other headers.
   */
  datatype Response = Response(
    status: int,
    statusText: string,
    body: string,
    headers: map<string, string>,
    cachedDate: Option<int>)
  {
    /** `response.ok`: a status in the range 200-299. */
    predicate Ok() {
      200 <= status <= 299
    }
  }

  /** What `fetch` does with the request: it answers with a response, or it rejects. */
  datatype NetworkResult = Responded(response: Response) | Failed(error: string)

  /** What the interceptor's promise does: it resolves to a response, or it rejects. */
  datatype Outcome = Served(response: Response) | Rejected(error: string)

  const OfflineHtml: string :=
    "<!DOCTYPE html><html><body><h1>" + "Offline"
    + "</h1><p>You are currently offline. Please check your internet connection.</p></body></html>"

  /** The page synthesised for an HTML request with neither network nor cached copy. */
  function OfflinePage(): (r: Response)
    ensures r.Ok() && r.headers == map["Content-Type" := "text/html"]
    ensures Contains(r.body, "Offline")
  {
    ContainsInfix("<!DOCTYPE html><html><body><h1>", "Offline",
      "</h1><p>You are currently offline. Please check your internet connection.</p></body></html>");
    Response(200, "", OfflineHtml, map["Content-Type" := "text/html"], None)
  }

  /** The copy that is stored: the response with `sw-cached-date` set to `time`. */
  function Stamp(r: Response, time: int): Response {
    r.(cachedDate := Some(time))
  }

  /**
   * The age test of lines 53-54: a missing `sw-cached-date` header reads as the
   * epoch (`new Date(null)` is time 0), and only an age strictly above `maxAge`
   * is expired.
   */
  predicate IsExpired(cached: Response, now: int, maxAge: nat): (b: bool)
    ensures cached.cachedDate.Some? && cached.cachedDate.value >= now ==> !b
  {
    now - cached.cachedDate.GetOr(0) > maxAge
  }

  // ---------------------------------------------------------------------
  // Cache storage as a value, and one request as a function of it

  datatype Buckets = Buckets(staticCache: map<Url, Response>, dynamicCache: map<Url, Response>)

  /** `caches.match`: every cache is searched, `static-v1` (opened at install) first. */
  function MatchIn(b: Buckets, url: Url): (r: Option<Response>)
    ensures r.Some? <==> url in b.staticCache || url in b.dynamicCache
  {
    if url in b.staticCache then Some(b.staticCache[url])
    else if url in b.dynamicCache then Some(b.dynamicCache[url])
    else None
  }

  /** The `Vary` header value lists `*`: the value split at commas, each piece trimmed of optional whitespace. */
  predicate ListsStar(value: string) {
    exists i :: 0 <= i < |Split(value)| && TrimOws(Split(value)[i]) == "*"
  }

  /** Some `Vary` header (names compared ignoring case) lists `*`. */
  predicate VaryIsStar(headers: map<string, string>) {
    exists name :: name in headers && Lower(name) == "vary" && ListsStar(headers[name])
  }

  /**
   * `cache.put` accepts the response: it rejects a partial (206) response and
   * one whose `Vary` header lists `*`.
   */
  predicate PutAccepts(r: Response) {
    r.status != 206 && !VaryIsStar(r.headers)
  }

  /** Api responses live only in `dynamic-v1`, every other category only in `static-v1`. */
  predicate WellPlaced(b: Buckets) {
    && (forall u :: u in b.staticCache ==> GetResourceType(u.pathname) != Api)
    && (forall u :: u in b.dynamicCache ==> GetResourceType(u.pathname) == Api)
  }

  /** `caches.open(name).put(url, r)` for the two caches the interceptor writes to. */
  function PutIn(b: Buckets, cacheName: string, url: Url, r: Response): Buckets {
    if cacheName == DYNAMIC_CACHE then b.(dynamicCache := b.dynamicCache[url := r])
    else b.(staticCache := b.staticCache[url := r])
  }

  /** The result of one intercepted request: the outcome, whether `fetch` was called, and the caches after. */
  datatype Step = Step(outcome: Outcome, fetched: bool, after: Buckets)

  /** `handleAIOptimizedRequest` over cache contents `b`, the clock and the network's answer. */
  function HandleRequest(b: Buckets, request: Request, now: int, stampTime: int, net: NetworkResult): (s: Step)
    ensures s.fetched <==>
      || request.httpMethod != "GET"
      || MatchIn(b, request.url).None?
      || IsExpired(MatchIn(b, request.url).value, now, MaxAge(GetResourceType(request.url.pathname)))
    ensures s.after != b ==>
      && request.httpMethod == "GET" && net.Responded?
      && net.response.Ok() && PutAccepts(net.response) && s.outcome == Served(net.response)
    ensures s.outcome.Rejected? ==> net.Failed? && s.outcome.error == net.error
  {
    if request.httpMethod != "GET" then
      Step(match net case Responded(r) => Served(r) case Failed(e) => Rejected(e), true, b)
    else
      var resourceType := GetResourceType(request.url.pathname);
      var maxAge := MaxAge(resourceType);
      var cached := MatchIn(b, request.url);
      if cached.Some? && !IsExpired(cached.value, now, maxAge) then
        Step(Served(cached.value), false, b)
      else
        match net
        case Responded(r) =>
          var cacheName := if resourceType == Api then DYNAMIC_CACHE else STATIC_CACHE;
          var stored := r.Ok() && PutAccepts(Stamp(r, stampTime));
          Step(Served(r), true, if stored then PutIn(b, cacheName, request.url, Stamp(r, stampTime)) else b)
        case Failed(e) =>
          if cached.Some? then Step(Served(cached.value), true, b)
          else if resourceType == Html then Step(Served(OfflinePage()), true, b)
          else Step(Rejected(e), true, b)
  }

  // ---------------------------------------------------------------------
  // The cache storage object and the interceptor

  class CacheStorage {
    var staticCache: map<Url, Response>
    var dynamicCache: map<Url, Response>

    function Contents(): Buckets
      reads this
    {
      Buckets(staticCache, dynamicCache)
    }

    ghost predicate Valid()
      reads this
    {
      WellPlaced(Contents())
    }

    /** The caches as the install step leaves them (its pre-cached entries carry no stamp). */
    constructor (initial: Buckets)
      requires WellPlaced(initial)
      ensures Valid() && Contents() == initial
    {
      staticCache := initial.staticCache;
      dynamicCache := initial.dynamicCache;
    }

    function Match(url: Url): (r: Option<Response>)
      reads this
      ensures r.Some? <==> url in staticCache || url in dynamicCache
    {
      MatchIn(Contents(), url)
    }

    /**
     * `caches.open(name).put(url, r)`: stores `r` unless the put rejects; the
     * interceptor does not await it, so a rejection only means nothing is stored.
     */
    method Put(cacheName: string, url: Url, r: Response) returns (accepted: bool)
      modifies this
      ensures accepted == PutAccepts(r)
      ensures Contents() == if accepted then PutIn(old(Contents()), cacheName, url, r) else old(Contents())
    {
      accepted := PutAccepts(r);
      if !accepted {
        return;
      }
      if cacheName == DYNAMIC_CACHE {
        dynamicCache := dynamicCache[url := r];
      } else {
        staticCache := staticCache[url := r];
      }
    }

    /** The fetch handler for one request; `fetched` says whether the network was asked. */
    method HandleAIOptimizedRequest(request: Request, now: int, stampTime: int, net: NetworkResult)
      returns (outcome: Outcome, fetched: bool)
      requires Valid()
      modifies this
      ensures Valid()
      ensures Step(outcome, fetched, Contents()) == HandleRequest(old(Contents()), request, now, stampTime, net)
    {
      if request.httpMethod != "GET" {
        fetched := true;
        match net {
          case Responded(r) => outcome := Served(r);
          case Failed(e) => outcome := Rejected(e);
        }
        return;
      }
      var resourceType := GetResourceType(request.url.pathname);
      var maxAge := MaxAge(resourceType);
      var cachedResponse := Match(request.url);
      if cachedResponse.Some? {
        if !IsExpired(cachedResponse.value, now, maxAge) {
          outcome, fetched := Served(cachedResponse.value), false;
          return;
        }
      }
      fetched := true;
      match net {
        case Responded(networkResponse) =>
          if networkResponse.Ok() {
            var modifiedResponse := Stamp(networkResponse, stampTime);
            var cacheName := if resourceType == Api then DYNAMIC_CACHE else STATIC_CACHE;
            var _ := Put(cacheName, request.url, modifiedResponse);
          }
          outcome := Served(networkResponse);
        case Failed(error) =>
          var fallback := Match(request.url);
          if fallback.Some? {
            outcome := Served(fallback.value);
          } else if resourceType == Html {
            outcome := Served(OfflinePage());
          } else {
            outcome := Rejected(error);
          }
      }
      StepKeepsWellPlaced(old(Contents()), request, now, stampTime, net);
    }
  }

  // ---------------------------------------------------------------------
  // Properties

  /** Extensions decide first, ignoring case; only then the `/api/` and `/functions/` substrings. */
  lemma ResourceTypeOrder(p: string)
    ensures GetResourceType(p) == Images <==> EndsWithAnyIgnoreCase(p, ImageExtensions)
    ensures GetResourceType(p) == Scripts <==>
      !EndsWithAnyIgnoreCase(p, ImageExtensions) && EndsWithAnyIgnoreCase(p, ScriptExtensions)
    ensures GetResourceType(p) == Styles <==>
      !EndsWithAnyIgnoreCase(p, ImageExtensions) && !EndsWithAnyIgnoreCase(p, ScriptExtensions)
      && EndsWithIgnoreCase(p, ".css")
    ensures GetResourceType(p) == Api <==>
      !EndsWithAnyIgnoreCase(p, ImageExtensions) && !EndsWithAnyIgnoreCase(p, ScriptExtensions)
      && !EndsWithIgnoreCase(p, ".css") && (Contains(p, "/api/") || Contains(p, "/functions/"))
  {
  }

  /** Paths that differ only in letter case fall into the same extension category. */
  lemma ExtensionCategoryIgnoresCase(p: string, q: string)
    requires Lower(p) == Lower(q)
    requires GetResourceType(p) in {Images, Scripts, Styles}
    ensures GetResourceType(q) == GetResourceType(p)
  {
  }

  /** An image extension wins over an `/api/` segment. */
  lemma ApiPathWithImageExtensionIsImage()
    ensures GetResourceType("/api/logo.png") == Images
  {
    EndsWithIgnoreCaseOf("/api/logo", ".png", ImageExtensions[2]);
    assert "/api/logo" + ".png" == "/api/logo.png";
  }

  /** The extension test ignores case. */
  lemma UpperCaseExtensionIsImage()
    ensures GetResourceType("/img/Photo.JPEG") == Images
  {
    assert Lower(".JPEG") == Lower(ImageExtensions[1]);
    EndsWithIgnoreCaseOf("/img/Photo", ".JPEG", ImageExtensions[1]);
    assert "/img/Photo" + ".JPEG" == "/img/Photo.JPEG";
  }

  /** No category misses `CACHE_STRATEGIES`, so the `html` fallback of line 47 is never used. */
  lemma MaxAgeTable(t: ResourceType)
    ensures Key(t) in CacheStrategies && MaxAge(t) == CacheStrategies[Key(t)]
    ensures MaxAge(t) == match t
      case Images => 604800000
      case Scripts => 2592000000
      case Styles => 604800000
      case Api => 300000
      case Html => 3600000
  {
  }

  /** A response without `sw-cached-date` is as old as the clock, so stale once `now > maxAge`. */
  lemma UnstampedReadsAsEpoch(cached: Response, now: int, maxAge: nat)
    requires cached.cachedDate.None?
    ensures IsExpired(cached, now, maxAge) <==> now > maxAge
  {
  }

  /** A non-GET request goes to the network as it is and leaves every cache unchanged. */
  lemma NonGetBypassesCache(b: Buckets, request: Request, now: int, stampTime: int, net: NetworkResult)
    requires request.httpMethod != "GET"
    ensures var s := HandleRequest(b, request, now, stampTime, net);
      && s.fetched && s.after == b
      && s.outcome == match net case Responded(r) => Served(r) case Failed(e) => Rejected(e)
  {
  }

  /** A cached copy no older than its category's `maxAge` is served without a fetch. */
  lemma FreshHitServedWithoutFetch(b: Buckets, request: Request, now: int, stampTime: int, net: NetworkResult)
    requires request.httpMethod == "GET"
    requires MatchIn(b, request.url).Some?
    requires now - MatchIn(b, request.url).value.cachedDate.GetOr(0) <= MaxAge(GetResourceType(request.url.pathname))
    ensures HandleRequest(b, request, now, stampTime, net) == Step(Served(MatchIn(b, request.url).value), false, b)
  {
  }

  /**
   * On a miss or a stale copy the network is asked; an ok answer that `put`
   * accepts is stored once, stamped, in `dynamic-v1` for api paths and in
   * `static-v1` otherwise, and the unstamped answer is returned; any other
   * answer is returned and not stored.
   */
  lemma RefetchStoresStampedCopy(b: Buckets, request: Request, now: int, stampTime: int, r: Response)
    requires request.httpMethod == "GET"
    requires var cached := MatchIn(b, request.url);
      cached.None? || IsExpired(cached.value, now, MaxAge(GetResourceType(request.url.pathname)))
    ensures var s := HandleRequest(b, request, now, stampTime, Responded(r));
      && s.fetched && s.outcome == Served(r)
      && (!(r.Ok() && PutAccepts(r)) ==> s.after == b)
      && (r.Ok() && PutAccepts(r) && GetResourceType(request.url.pathname) == Api ==>
            s.after == b.(dynamicCache := b.dynamicCache[request.url := Stamp(r, stampTime)]))
      && (r.Ok() && PutAccepts(r) && GetResourceType(request.url.pathname) != Api ==>
            s.after == b.(staticCache := b.staticCache[request.url := Stamp(r, stampTime)]))
  {
  }

  /**
   * When the network fails after a miss or a stale copy: any cached copy is
   * served whatever its age, else an HTML request gets the offline page, else
   * the error is rethrown. The caches are not touched.
   */
  lemma NetworkFailureFallbacks(b: Buckets, request: Request, now: int, stampTime: int, e: string)
    requires request.httpMethod == "GET"
    requires var cached := MatchIn(b, request.url);
      cached.None? || IsExpired(cached.value, now, MaxAge(GetResourceType(request.url.pathname)))
    ensures var s := HandleRequest(b, request, now, stampTime, Failed(e));
      && s.fetched && s.after == b
      && s.outcome == (
        if MatchIn(b, request.url).Some? then Served(MatchIn(b, request.url).value)
        else if GetResourceType(request.url.pathname) == Html then Served(OfflinePage())
        else Rejected(e))
  {
  }

  /** With no network and no cached copy, an HTML request gets a text/html page saying "Offline". */
  lemma OfflinePageForHtml(b: Buckets, request: Request, now: int, stampTime: int, e: string)
    requires request.httpMethod == "GET" && MatchIn(b, request.url).None?
    requires GetResourceType(request.url.pathname) == Html
    ensures var s := HandleRequest(b, request, now, stampTime, Failed(e));
      s.outcome.Served? && s.outcome.response.headers["Content-Type"] == "text/html"
      && Contains(s.outcome.response.body, "Offline")
  {
  }

  /**
   * A partial (206) answer is ok but `put` rejects it: nothing is stored, so
   * the same request is sent to the network again.
   */
  lemma PartialContentRefetched(
    b: Buckets, request: Request, now1: int, stampTime: int, r: Response,
    now2: int, stampTime2: int, net2: NetworkResult)
    requires request.httpMethod == "GET" && MatchIn(b, request.url).None? && r.status == 206
    ensures var s1 := HandleRequest(b, request, now1, stampTime, Responded(r));
      && r.Ok() && s1.outcome == Served(r) && s1.after == b
      && HandleRequest(s1.after, request, now2, stampTime2, net2).fetched
  {
  }

  /** Once a copy is expired it stays expired as the clock advances. */
  lemma ExpiryIsPermanent(cached: Response, now1: int, now2: int, maxAge: nat)
    requires now1 <= now2 && IsExpired(cached, now1, maxAge)
    ensures IsExpired(cached, now2, maxAge)
  {
  }

  /** Every request keeps api responses in `dynamic-v1` and all others in `static-v1`. */
  lemma StepKeepsWellPlaced(b: Buckets, request: Request, now: int, stampTime: int, net: NetworkResult)
    requires WellPlaced(b)
    ensures WellPlaced(HandleRequest(b, request, now, stampTime, net).after)
  {
  }

  /**
   * Serving the same GET twice within the time-to-live fetches once: after a
   * refetch stored an ok answer stamped at `stampTime`, a second request no more
   * than `maxAge` later is answered with that stamped copy, without the network
   * and without changing the caches.
   */
  lemma SecondRequestWithinTtlIsHit(
    b: Buckets, request: Request, now1: int, stampTime: int, r: Response,
    now2: int, stampTime2: int, net2: NetworkResult)
    requires WellPlaced(b) && request.httpMethod == "GET" && r.Ok() && PutAccepts(r)
    requires HandleRequest(b, request, now1, stampTime, Responded(r)).fetched
    requires now2 - stampTime <= MaxAge(GetResourceType(request.url.pathname))
    ensures var b1 := HandleRequest(b, request, now1, stampTime, Responded(r)).after;
      HandleRequest(b1, request, now2, stampTime2, net2) == Step(Served(Stamp(r, stampTime)), false, b1)
  {
    var b1 := HandleRequest(b, request, now1, stampTime, Responded(r)).after;
    if GetResourceType(request.url.pathname) == Api {
      assert request.url !in b.staticCache;
      assert b1.staticCache == b.staticCache;
    }
    assert MatchIn(b1, request.url) == Some(Stamp(r, stampTime));
  }
}
