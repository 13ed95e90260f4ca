// The service worker: precaching on install, cache-first fetch with a
// network fill, removal of old caches on activate, the push notification it
// shows, click routing and the background sync. The browser's cache store is
// a class over a map from cache name to the responses it holds by URL; the
// network is a parameter.

module ServiceWorker {
  import opened Common

  const CacheName := "water-cooler-v1"
  const OfflinePage := "/offline.html"

  const UrlsToCache: seq<string> := ["/", "/static/js/bundle.js", "/static/css/main.css", "/manifest.json",
                                     "/dashboard", "/matches", "/profile", "/analytics", "/insights"]

  datatype Response = Response(status: int, responseType: string, body: string)

  /** A request by HTTP method, URL and destination ('document' for a page
      load). */
  datatype Request = Request(httpMethod: string, url: string, destination: string)

  /** caches.match matches only GET requests (and HEAD, which is not sent
      here), and cache.put rejects any other method. */
  predicate IsGet(r: Request)
  {
    r.httpMethod == "GET"
  }

  /** What the network gives for a request: a response, or a failure. */
  datatype NetworkResult = Fetched(response: Response) | NetworkError

  /** What cache.addAll demands of every response: `response.ok` (a status
      from 200 to 299) and not 206 Partial Content, which the Cache API
      refuses to store. */
  predicate IsOk(r: NetworkResult)
  {
    r.Fetched? && 200 <= r.response.status <= 299 && r.response.status != 206
  }

  predicate NoDuplicates<T(==)>(xs: seq<T>)
  {
    forall i, j :: 0 <= i < j < |xs| ==> xs[i] != xs[j]
  }

  /** The first cache, in creation order, holding `url`. */
  function MatchIn(names: seq<string>, entries: map<string, map<string, Response>>, url: string): (r: Option<Response>)
    ensures r.Some? <==> exists i :: 0 <= i < |names| && names[i] in entries && url in entries[names[i]]
    ensures r.Some? ==> exists i :: 0 <= i < |names| && names[i] in entries && url in entries[names[i]]
                          && r.value == entries[names[i]][url]
                          && forall k :: 0 <= k < i ==> !(names[k] in entries && url in entries[names[k]])
  {
    if names == [] then None
    else if names[0] in entries && url in entries[names[0]] then Some(entries[names[0]][url])
    else
      var r := MatchIn(names[1..], entries, url);
      assert forall i :: 1 <= i < |names| ==> names[1..][i - 1] == names[i];
      r
  }

  /** The names `activate` keeps. */
  function Kept(names: seq<string>): (r: seq<string>)
    ensures forall i :: 0 <= i < |r| ==> r[i] == CacheName
    ensures CacheName in names <==> CacheName in r
    ensures |r| <= |names|
  {
    if names == [] then [] else (if names[0] == CacheName then [names[0]] else []) + Kept(names[1..])
  }

  /** The responses the cache store holds: only what `entries` holds under
      the names, and both give the same names. */
  class CacheStorage {
    var names: seq<string>
    var entries: map<string, map<string, Response>>

    ghost predicate Valid()
      reads this
    {
      NoDuplicates(names) && (forall n :: n in entries <==> n in names)
    }

    constructor ()
      ensures Valid() && names == [] && entries == map[]
    {
      names := [];
      entries := map[];
    }

    /** caches.match: the first cache holding the URL. */
    function Match(url: string): (r: Option<Response>)
      reads this
      ensures r.Some? <==> exists i :: 0 <= i < |names| && names[i] in entries && url in entries[names[i]]
      ensures r.Some? ==> exists i :: 0 <= i < |names| && names[i] in entries && url in entries[names[i]]
                            && r.value == entries[names[i]][url]
                            && forall k :: 0 <= k < i ==> !(names[k] in entries && url in entries[names[k]])
    {
      MatchIn(names, entries, url)
    }

    /** caches.open: the named cache, created empty at the end of the order
        when missing. */
    method Open(name: string)
      requires Valid()
      modifies this
      ensures Valid()
      ensures name in old(entries) ==> names == old(names) && entries == old(entries)
      ensures name !in old(entries) ==> names == old(names) + [name] && entries == old(entries)[name := map[]]
    {
      if name !in entries {
        names := names + [name];
        entries := entries[name := map[]];
      }
    }

    /** cache.put on an open cache. */
    method Put(name: string, url: string, response: Response)
      requires Valid() && name in entries
      modifies this
      ensures Valid()
      ensures names == old(names) && entries == old(entries)[name := old(entries)[name][url := response]]
    {
      entries := entries[name := entries[name][url := response]];
    }

    /** cache.addAll on an open cache: all the URLs' responses, or nothing
        unless every response is ok; `ok` is false when the promise is
        rejected. */
    method AddAll(name: string, urls: seq<string>, network: string -> NetworkResult) returns (ok: bool)
      requires Valid() && name in entries
      modifies this
      ensures Valid() && names == old(names)
      ensures ok <==> forall i :: 0 <= i < |urls| ==> IsOk(network(urls[i]))
      ensures entries == old(entries)[name :=
                if forall i :: 0 <= i < |urls| ==> IsOk(network(urls[i]))
                then old(entries)[name] + Precached(urls, network) else old(entries)[name]]
    {
      ok := AllOk(urls, network);
      if ok {
        entries := entries[name := entries[name] + Precached(urls, network)];
      }
    }

    /** caches.delete. */
    method Delete(name: string)
      requires Valid()
      modifies this
      ensures Valid()
      ensures entries == old(entries) - {name}
      ensures forall n :: n in names <==> n in old(names) && n != name
    {
      var i := 0;
      var kept: seq<string> := [];
      while i < |names|
        invariant 0 <= i <= |names|
        invariant NoDuplicates(kept)
        invariant forall n :: n in kept <==> n in names[..i] && n != name
      {
        if names[i] != name {
          assert names[i] !in kept;
          kept := kept + [names[i]];
        }
        i := i + 1;
      }
      assert names[..i] == names;
      names := kept;
      entries := entries - {name};
    }
  }

  /** The responses addAll stores: every URL with what the network gave. */
  function Precached(urls: seq<string>, network: string -> NetworkResult): (m: map<string, Response>)
    requires forall i :: 0 <= i < |urls| ==> network(urls[i]).Fetched?
    ensures forall u :: u in m <==> u in urls
    ensures forall u :: u in m ==> m[u] == network(u).response
  {
    if urls == [] then map[]
    else Precached(urls[..|urls| - 1], network)[urls[|urls| - 1] := network(urls[|urls| - 1]).response]
  }

  /** install: open the current cache and add all nine URLs; addAll stores
      nothing unless every response is ok, and then the promise given to
      `waitUntil` is rejected and the worker is not installed. The opened
      cache stays. */
  method Install(caches: CacheStorage, network: string -> NetworkResult) returns (installed: bool)
    requires caches.Valid()
    modifies caches
    ensures installed <==> forall i :: 0 <= i < |UrlsToCache| ==> IsOk(network(UrlsToCache[i]))
    ensures caches.Valid() && CacheName in caches.entries
    ensures forall n :: n in old(caches.entries) && n != CacheName ==> n in caches.entries && caches.entries[n] == old(caches.entries)[n]
    ensures var before := if CacheName in old(caches.entries) then old(caches.entries)[CacheName] else map[];
            caches.entries[CacheName] ==
              if forall i :: 0 <= i < |UrlsToCache| ==> IsOk(network(UrlsToCache[i]))
              then before + Precached(UrlsToCache, network) else before
  {
    installed := Precache(caches, CacheName, UrlsToCache, network);
  }

  /** install's steps for any cache name and URL list. */
  method Precache(caches: CacheStorage, name: string, urls: seq<string>, network: string -> NetworkResult)
    returns (ok: bool)
    requires caches.Valid()
    modifies caches
    ensures ok <==> forall i :: 0 <= i < |urls| ==> IsOk(network(urls[i]))
    ensures caches.Valid() && name in caches.entries
    ensures forall n :: n in old(caches.entries) && n != name ==> n in caches.entries && caches.entries[n] == old(caches.entries)[n]
    ensures var before := if name in old(caches.entries) then old(caches.entries)[name] else map[];
            caches.entries[name] ==
              if forall i :: 0 <= i < |urls| ==> IsOk(network(urls[i]))
              then before + Precached(urls, network) else before
  {
    caches.Open(name);
    ok := caches.AddAll(name, urls, network);
  }

  /** Whether every URL's response is ok. */
  method AllOk(urls: seq<string>, network: string -> NetworkResult) returns (ok: bool)
    ensures ok <==> forall i :: 0 <= i < |urls| ==> IsOk(network(urls[i]))
  {
    ok := true;
    var i := 0;
    while i < |urls|
      invariant 0 <= i <= |urls|
      invariant ok <==> forall k :: 0 <= k < i ==> IsOk(network(urls[k]))
    {
      if !IsOk(network(urls[i])) {
        ok := false;
      }
      i := i + 1;
    }
  }

  /** A response worth caching: status 200 from the same origin. */
  predicate Cacheable(r: Response)
  {
    r.status == 200 && r.responseType == "basic"
  }

  /** fetch: the cached response if any, without touching the network;
      otherwise the network's, stored in the current cache when cacheable
      and the request is a GET (cache.put rejects any other method, and the
      rejection is not awaited); on a network failure the offline page for
      a document and nothing for anything else. A request other than GET
      never matches a cached response. */
  method HandleFetch(caches: CacheStorage, request: Request, network: Request -> NetworkResult)
    returns (r: Option<Response>, usedNetwork: bool)
    requires caches.Valid()
    modifies caches
    ensures caches.Valid()
    ensures usedNetwork <==> Lookup(old(caches.Match(request.url)), request).None?
    ensures Lookup(old(caches.Match(request.url)), request).Some? ==>
              r == old(caches.Match(request.url)) && caches.names == old(caches.names) && caches.entries == old(caches.entries)
    ensures usedNetwork && network(request).Fetched? ==> r == Some(network(request).response)
    ensures usedNetwork && network(request).Fetched? && Cacheable(network(request).response) && IsGet(request) ==>
              CacheName in caches.entries && caches.entries[CacheName] ==
                (if CacheName in old(caches.entries) then old(caches.entries)[CacheName] else map[])[request.url := network(request).response]
    ensures usedNetwork && !(network(request).Fetched? && Cacheable(network(request).response) && IsGet(request)) ==>
              caches.names == old(caches.names) && caches.entries == old(caches.entries)
    ensures usedNetwork && network(request).NetworkError? ==>
              r == (if request.destination == "document" then old(caches.Match(OfflinePage)) else None)
  {
    var cached := Lookup(caches.Match(request.url), request);
    if cached.Some? {
      return cached, false;
    }
    usedNetwork := true;
    var result := network(request);
    match result {
      case Fetched(response) =>
        if Cacheable(response) && IsGet(request) {
          caches.Open(CacheName);
          caches.Put(CacheName, request.url, response);
        }
        r := Some(response);
      case NetworkError =>
        if request.destination == "document" {
          r := caches.Match(OfflinePage);
        } else {
          r := None;
        }
    }
  }

  /** caches.match(request): what the caches hold for the URL, for a GET
      request only. */
  function Lookup(stored: Option<Response>, request: Request): (r: Option<Response>)
    ensures r.Some? <==> IsGet(request) && stored.Some?
    ensures r.Some? ==> r == stored
  {
    if IsGet(request) then stored else None
  }

  /** activate: every cache but the current one deleted. */
  method Activate(caches: CacheStorage)
    requires caches.Valid()
    modifies caches
    ensures caches.Valid()
    ensures caches.entries == ActivatedEntries(old(caches.entries))
  {
    var names := caches.names;
    var i := 0;
    while i < |names|
      invariant 0 <= i <= |names|
      invariant caches.Valid()
      invariant forall n :: n in caches.entries <==> n in old(caches.entries) && (n == CacheName || n !in names[..i])
      invariant forall n :: n in caches.entries ==> caches.entries[n] == old(caches.entries)[n]
    {
      assert names[..i + 1] == names[..i] + [names[i]];
      if names[i] != CacheName {
        caches.Delete(names[i]);
      }
      i := i + 1;
    }
    assert names[..i] == names;
    assert caches.entries.Keys == ActivatedEntries(old(caches.entries)).Keys;
  }

  /** The cache store activate leaves: only the current cache. */
  function ActivatedEntries(entries: map<string, map<string, Response>>): (r: map<string, map<string, Response>>)
    ensures forall n :: n in r <==> n in entries && n == CacheName
    ensures forall n :: n in r ==> r[n] == entries[n]
  {
    map n | n in entries && n == CacheName :: entries[n]
  }

  /** A second activate changes nothing. */
  lemma {:induction false} ActivateIsIdempotent(entries: map<string, map<string, Response>>)
    ensures ActivatedEntries(ActivatedEntries(entries)) == ActivatedEntries(entries)
  {
    var once := ActivatedEntries(entries);
    assert ActivatedEntries(once).Keys == once.Keys;
  }

  // ---------------------------------------------------------------------
  // Push, click and sync

  datatype NotificationAction = NotificationAction(action: string, title: string, icon: string)

  datatype NotificationOptions = NotificationOptions(
    title: string,
    body: string,
    icon: string,
    badge: string,
    vibrate: seq<int>,
    dateOfArrival: int,
    primaryKey: int,
    actions: seq<NotificationAction>)

  const AppTitle := "Water Cooler Network"
  const DefaultBody := "New notification from Water Cooler Network"

  /** push: the payload text, or the default, under the fixed title, with
      the two actions; `now` is Date.now(). */
  function PushNotification(payload: Option<string>, now: int): (n: NotificationOptions)
    ensures n.title == AppTitle
    ensures n.body == (if payload.Some? then payload.value else DefaultBody)
    ensures |n.actions| == 2 && n.actions[0].action == "explore" && n.actions[1].action == "close"
    ensures n.dateOfArrival == now
  {
    NotificationOptions(AppTitle, if payload.Some? then payload.value else DefaultBody,
                        "/icons/icon-192x192.png", "/icons/badge-72x72.png", [100, 50, 100], now, 1,
                        [NotificationAction("explore", "View", "/icons/checkmark.png"),
                         NotificationAction("close", "Close", "/icons/xmark.png")])
  }

  /** The effect of a click: the notification is closed, and at most one
      window opens. */
  datatype ClickOutcome = ClickOutcome(closesNotification: bool, opensWindow: Option<string>)

  /** notificationclick. */
  function NotificationClick(action: string): (c: ClickOutcome)
    ensures c.closesNotification
    ensures c.opensWindow == Some("/dashboard") <==> action == "explore"
    ensures c.opensWindow.None? <==> action == "close"
    ensures c.opensWindow == Some("/") <==> action != "explore" && action != "close"
  {
    if action == "explore" then ClickOutcome(true, Some("/dashboard"))
    else if action == "close" then ClickOutcome(true, None)
    else ClickOutcome(true, Some("/"))
  }

  /** getStoredNotifications: the stored queue, always empty. */
  function StoredNotifications(): (r: seq<string>)
    ensures |r| == 0
  {
    []
  }

  /** The notifications a sync sends: the pending ones, if there are any. */
  function Synced(pending: seq<string>): (r: seq<string>)
    ensures r == pending
  {
    if |pending| > 0 then pending else []
  }

  /** sync: only the 'background-sync' tag runs doBackgroundSync, and that
      sends what is stored, which is nothing. */
  function BackgroundSync(tag: string): (r: seq<string>)
    ensures r == []
  {
    if tag == "background-sync" then Synced(StoredNotifications()) else []
  }
}
