/**
 * The HTTP response cache middleware's decisions: which requests and
 * responses are cached, which headers are left out, when a stored
 * response is still served, and the configuration used when none is
 * given. Durations are in nanoseconds, as Go's time.Duration counts them;
 * the clock is the parameter `now`.
 */
module Middleware {
  import opened Common

  const Minute: int := 60_000_000_000

  /** CacheMiddlewareConfig. */
  datatype MiddlewareConfig = MiddlewareConfig(
    defaultTTL: int, cacheableStatus: seq<int>, cacheableRoutes: seq<string>,
    ignoreHeaders: seq<string>, maxBodySize: int, enabled: bool)

  /** The configuration NewCacheMiddleware uses when it is given none. */
  const DefaultMiddlewareConfig := MiddlewareConfig(
    5 * Minute, [200, 201, 202], ["/api/analyze", "/api/compare", "/api/classify"],
    ["Authorization", "Cookie", "Set-Cookie"], 10 * 1024 * 1024, true)

  /** NewCacheMiddleware: the given configuration, or the built-in one for a nil configuration. */
  function NewCacheMiddleware(config: Option<MiddlewareConfig>): (r: MiddlewareConfig)
    ensures config.Some? ==> r == config.value
    ensures config.None? ==> r.defaultTTL == 300_000_000_000 && r.maxBodySize == 10_485_760 && r.enabled
    ensures config.None? ==> r.cacheableRoutes == ["/api/analyze", "/api/compare", "/api/classify"]
    ensures config.None? ==> r.ignoreHeaders == ["Authorization", "Cookie", "Set-Cookie"]
  {
    if config.None? then DefaultMiddlewareConfig else config.value
  }

  // ------------------------------------------------------------------
  // shouldCache.
  // ------------------------------------------------------------------

  /** strings.HasPrefix. */
  predicate HasPrefix(s: string, prefix: string)
  {
    |prefix| <= |s| && s[..|prefix|] == prefix
  }

  /** Some configured route is a prefix of the path. */
  predicate RouteMatches(path: string, routes: seq<string>)
  {
    exists i :: 0 <= i < |routes| && HasPrefix(path, routes[i])
  }

  /** shouldCache: GET and POST requests whose path starts with a cacheable route. */
  method ShouldCache(httpMethod: string, path: string, config: MiddlewareConfig) returns (cacheable: bool)
    ensures cacheable <==> (httpMethod == "GET" || httpMethod == "POST") && RouteMatches(path, config.cacheableRoutes)
  {
    if httpMethod != "GET" && httpMethod != "POST" {
      return false;
    }
    var i := 0;
    while i < |config.cacheableRoutes|
      invariant 0 <= i <= |config.cacheableRoutes|
      invariant forall j :: 0 <= j < i ==> !HasPrefix(path, config.cacheableRoutes[j])
    {
      if HasPrefix(path, config.cacheableRoutes[i]) {
        return true;
      }
      i := i + 1;
    }
    return false;
  }

  /** A path below a cacheable path is cacheable too: caching is decided by prefix. */
  lemma {:induction false} RouteMatchesExtends(path: string, suffix: string, routes: seq<string>)
    requires RouteMatches(path, routes)
    ensures RouteMatches(path + suffix, routes)
  {
    var i :| 0 <= i < |routes| && HasPrefix(path, routes[i]);
    assert (path + suffix)[..|routes[i]|] == path[..|routes[i]|];
  }

  /** With the built-in routes, an analysis path is cached and the health check is not. */
  lemma DefaultRoutes()
    ensures RouteMatches("/api/analyze/42", DefaultMiddlewareConfig.cacheableRoutes)
    ensures !RouteMatches("/api/health", DefaultMiddlewareConfig.cacheableRoutes)
  {
    assert "/api/analyze/42"[..|"/api/analyze"|] == "/api/analyze";
    assert HasPrefix("/api/analyze/42", DefaultMiddlewareConfig.cacheableRoutes[0]);
    var routes := DefaultMiddlewareConfig.cacheableRoutes;
    forall i | 0 <= i < |routes|
      ensures !HasPrefix("/api/health", routes[i])
    {
      assert "/api/health"[5] == 'h';
      assert routes[i][5] != 'h';
    }
  }

  // ------------------------------------------------------------------
  // shouldCacheResponse.
  // ------------------------------------------------------------------

  /**
   * shouldCacheResponse: the loop over the cacheable status codes only
   * breaks and decides nothing, so any status code is cached; only the
   * body size (as int64, so unchanged) is compared with the maximum.
   */
  method ShouldCacheResponse(statusCode: int, bodySize: int, config: MiddlewareConfig) returns (cacheable: bool)
    ensures cacheable <==> bodySize <= config.maxBodySize
  {
    var i := 0;
    while i < |config.cacheableStatus|
      invariant 0 <= i <= |config.cacheableStatus|
    {
      if statusCode == config.cacheableStatus[i] {
        break;
      }
      i := i + 1;
    }
    if bodySize > config.maxBodySize {
      return false;
    }
    return true;
  }

  // ------------------------------------------------------------------
  // shouldIgnoreHeader.
  // ------------------------------------------------------------------

  /** ASCII lower case; header names are ASCII tokens. */
  function Lower(c: char): char
  {
    if 'A' <= c <= 'Z' then (c as int + 32) as char else c
  }

  /** strings.EqualFold on ASCII text. */
  predicate EqualFold(a: string, b: string)
  {
    |a| == |b| && forall i :: 0 <= i < |a| ==> Lower(a[i]) == Lower(b[i])
  }

  /** Folded equality is an equivalence: reflexive, symmetric and transitive. */
  lemma EqualFoldEquivalence(a: string, b: string, c: string)
    ensures EqualFold(a, a)
    ensures EqualFold(a, b) ==> EqualFold(b, a)
    ensures EqualFold(a, b) && EqualFold(b, c) ==> EqualFold(a, c)
  {
  }

  predicate IgnoredBy(name: string, ignoreHeaders: seq<string>)
  {
    exists i :: 0 <= i < |ignoreHeaders| && EqualFold(name, ignoreHeaders[i])
  }

  /** shouldIgnoreHeader: the name matches some ignored header, ignoring ASCII case. */
  method ShouldIgnoreHeader(headerName: string, ignoreHeaders: seq<string>) returns (ignored: bool)
    ensures ignored <==> IgnoredBy(headerName, ignoreHeaders)
  {
    var i := 0;
    while i < |ignoreHeaders|
      invariant 0 <= i <= |ignoreHeaders|
      invariant forall j :: 0 <= j < i ==> !EqualFold(headerName, ignoreHeaders[j])
    {
      if EqualFold(headerName, ignoreHeaders[i]) {
        return true;
      }
      i := i + 1;
    }
    return false;
  }

  /** Two spellings of a name that differ only in case are ignored alike. */
  lemma IgnoredCaseInsensitive(a: string, b: string, ignoreHeaders: seq<string>)
    requires EqualFold(a, b)
    ensures IgnoredBy(a, ignoreHeaders) <==> IgnoredBy(b, ignoreHeaders)
  {
    if IgnoredBy(a, ignoreHeaders) {
      var i :| 0 <= i < |ignoreHeaders| && EqualFold(a, ignoreHeaders[i]);
      EqualFoldEquivalence(b, a, ignoreHeaders[i]);
      EqualFoldEquivalence(a, b, ignoreHeaders[i]);
    }
    if IgnoredBy(b, ignoreHeaders) {
      var i :| 0 <= i < |ignoreHeaders| && EqualFold(b, ignoreHeaders[i]);
      EqualFoldEquivalence(a, b, ignoreHeaders[i]);
    }
  }

  /** The built-in configuration drops the credentials whatever their case. */
  lemma DefaultIgnoresCredentials()
    ensures IgnoredBy("authorization", DefaultMiddlewareConfig.ignoreHeaders)
    ensures IgnoredBy("COOKIE", DefaultMiddlewareConfig.ignoreHeaders)
    ensures !IgnoredBy("Accept", DefaultMiddlewareConfig.ignoreHeaders)
  {
    assert EqualFold("authorization", DefaultMiddlewareConfig.ignoreHeaders[0]);
    assert EqualFold("COOKIE", DefaultMiddlewareConfig.ignoreHeaders[1]);
    var ignore := DefaultMiddlewareConfig.ignoreHeaders;
    forall i | 0 <= i < |ignore|
      ensures !EqualFold("Accept", ignore[i])
    {
      assert Lower("Accept"[0]) == 'a';
    }
  }

  // ------------------------------------------------------------------
  // Stored responses.
  // ------------------------------------------------------------------

  type Headers = map<string, seq<string>>

  /** CachedResponse. */
  datatype CachedResponse = CachedResponse(
    statusCode: int, headers: Headers, body: seq<bv8>, timestamp: int, ttl: int)

  /** What the cache service holds under a key: a cached response or some other value. */
  datatype StoredValue = Response(response: CachedResponse) | OtherValue

  /** The response headers that are not ignored, with their values. */
  function FilterHeaders(headers: Headers, ignoreHeaders: seq<string>): Headers
  {
    map name | name in headers && !IgnoredBy(name, ignoreHeaders) :: headers[name]
  }

  /**
   * Filtering keeps exactly the headers that are not ignored, with their
   * values, and filtering again changes nothing.
   */
  lemma FilterHeadersFacts(headers: Headers, ignoreHeaders: seq<string>)
    ensures forall name :: name in FilterHeaders(headers, ignoreHeaders) <==>
      name in headers && !IgnoredBy(name, ignoreHeaders)
    ensures forall name :: name in FilterHeaders(headers, ignoreHeaders) ==>
      FilterHeaders(headers, ignoreHeaders)[name] == headers[name]
    ensures FilterHeaders(FilterHeaders(headers, ignoreHeaders), ignoreHeaders) == FilterHeaders(headers, ignoreHeaders)
  {
    var once := FilterHeaders(headers, ignoreHeaders);
    assert FilterHeaders(once, ignoreHeaders).Keys == once.Keys;
  }

  /**
   * cacheResponse: the response as captured, its headers without the
   * ignored ones, stamped with the current time and the configured TTL.
   * Storing it in the cache service is not part of this model.
   */
  method CacheResponse(statusCode: int, responseHeaders: Headers, body: seq<bv8>, now: int,
                       config: MiddlewareConfig) returns (cached: CachedResponse)
    ensures cached == CachedResponse(statusCode, FilterHeaders(responseHeaders, config.ignoreHeaders),
                                     body, now, config.defaultTTL)
  {
    var headers: Headers := map[];
    var rest := responseHeaders.Keys;
    while rest != {}
      invariant rest <= responseHeaders.Keys
      invariant forall name :: name in headers <==>
        name in responseHeaders && name !in rest && !IgnoredBy(name, config.ignoreHeaders)
      invariant forall name :: name in headers ==> headers[name] == responseHeaders[name]
      decreases rest
    {
      var name :| name in rest;
      var ignored := ShouldIgnoreHeader(name, config.ignoreHeaders);
      if !ignored {
        headers := headers[name := responseHeaders[name]];
      }
      rest := rest - {name};
    }
    assert headers.Keys == FilterHeaders(responseHeaders, config.ignoreHeaders).Keys;
    cached := CachedResponse(statusCode, headers, body, now, config.defaultTTL);
  }

  // ------------------------------------------------------------------
  // getCachedResponse.
  // ------------------------------------------------------------------

  /** The outcome of getCachedResponse: a response to serve, or a miss that may delete the key. */
  datatype CacheLookup = Hit(response: CachedResponse) | Miss(deleted: bool)

  /**
   * getCachedResponse on what the cache service returned: a miss when
   * nothing was found or the value is not a cached response; a miss that
   * deletes the key when the response is older than its TTL; otherwise a
   * hit. An age equal to the TTL is still a hit.
   */
  function GetCachedResponse(found: Option<StoredValue>, now: int): (r: CacheLookup)
    ensures r.Hit? <==> found.Some? && found.value.Response? &&
                        now - found.value.response.timestamp <= found.value.response.ttl
    ensures r.Hit? ==> r.response == found.value.response
    ensures (r.Miss? && r.deleted) <==>
      (found.Some? && found.value.Response? && now - found.value.response.timestamp > found.value.response.ttl)
  {
    if found.None? then Miss(false)
    else if !found.value.Response? then Miss(false)
    else if now - found.value.response.timestamp > found.value.response.ttl then Miss(true)
    else Hit(found.value.response)
  }

  /**
   * A response stored by cacheResponse at time `stored` is served exactly
   * until `stored + DefaultTTL`, and then deleted on the next lookup.
   */
  lemma StoredResponseLifetime(statusCode: int, headers: Headers, body: seq<bv8>, stored: int,
                               config: MiddlewareConfig, now: int)
    ensures var cached := CachedResponse(statusCode, FilterHeaders(headers, config.ignoreHeaders),
                                         body, stored, config.defaultTTL);
      && (GetCachedResponse(Some(Response(cached)), now).Hit? <==> now <= stored + config.defaultTTL)
      && (GetCachedResponse(Some(Response(cached)), now) == Miss(true) <==> now > stored + config.defaultTTL)
  {
  }
}
