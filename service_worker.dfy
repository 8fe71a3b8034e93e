/** The offline cache policy of apps/web_flutter/web/pwa_service_worker.js.
    Installing fetches the application shell into the cache named
    `CacheName`, activating deletes every other cache, and a GET is
    answered network-first when its URL names the caller's ticket and
    cache-first otherwise; only status-200 answers are cached.

    The worker's `CacheStorage` is a `Worker` object holding the caches by
    name, each a map from request URL to the stored response. The network is
    an input: a function from a URL to the response it delivers or the error
    `fetch` throws. */
module ServiceWorker {
  import opened Text

  const CacheName: string := "afcm-app-shell-v1"

  /** The application shell cached at install time. */
  const OfflineUrls: seq<string> :=
    ["/", "index.html", "manifest.json", "flutter.js", "pwa_service_worker.js", "assets/images/floor_plan.svg"]

  datatype Response = Response(status: int, body: string)

  datatype Request = Request(httpMethod: string, url: string)

  /** What `fetch` does with a URL: resolve with a response or throw. */
  datatype Fetched = Delivered(response: Response) | NetworkError(error: string)

  type Network = string -> Fetched

  /** One cache: request URL to stored response. */
  type Cache = map<string, Response>

  /** The worker's caches by name. */
  type Caches = map<string, Cache>

  /** What becomes of a fetch event: left to the browser, answered with a
      response, or answered with a rejected promise. */
  datatype Handling = NotIntercepted | Responded(response: Response) | Rejected(error: string)

  /** What `cache.addAll` demands of every response: `response.ok`, and
      not a partial (206) response. */
  predicate Ok(r: Response) {
    200 <= r.status <= 299 && r.status != 206
  }

  // ------------------------------------------------------------ specification

  /** `caches.open(CacheName)`: the shell cache, created empty if missing. */
  function Opened(cs: Caches): (r: Caches)
    ensures CacheName in r && r.Keys == cs.Keys + {CacheName}
    ensures forall k :: k in cs ==> r[k] == cs[k]
    ensures CacheName !in cs ==> r[CacheName] == map[]
  {
    if CacheName in cs then cs else cs[CacheName := map[]]
  }

  /** Lines 51-53 and 61-63: the response is put under its URL exactly when
      its status is 200. */
  function PutIfOk(cs: Caches, url: string, r: Response): Caches
    requires CacheName in cs
  {
    if r.status == 200 then cs[CacheName := cs[CacheName][url := r]] else cs
  }

  /** Lines 44-55. */
  function CacheFirst(cs: Caches, url: string, net: Network): (Handling, Caches) {
    var live := Opened(cs);
    if url in live[CacheName] then (Responded(live[CacheName][url]), live)
    else match net(url)
      case NetworkError(e) => (Rejected(e), live)
      case Delivered(r) => (Responded(r), PutIfOk(live, url, r))
  }

  /** Lines 57-72. */
  function NetworkFirst(cs: Caches, url: string, net: Network): (Handling, Caches) {
    var live := Opened(cs);
    match net(url)
    case Delivered(r) => (Responded(r), PutIfOk(live, url, r))
    case NetworkError(e) =>
      if url in live[CacheName] then (Responded(live[CacheName][url]), live)
      else (Rejected(e), live)
  }

  /** Lines 29-42: the fetch listener. */
  function Fetch(cs: Caches, req: Request, net: Network): (Handling, Caches) {
    if req.httpMethod != "GET" then (NotIntercepted, cs)
    else if Includes(req.url, "/me/ticket") then NetworkFirst(cs, req.url, net)
    else CacheFirst(cs, req.url, net)
  }

  /** Every URL fetched to a response with an OK status. */
  predicate AllOk(urls: seq<string>, net: Network) {
    forall k :: 0 <= k < |urls| ==> net(urls[k]).Delivered? && Ok(net(urls[k]).response)
  }

  /** The cache after putting `resps[k]` under `urls[k]`, in order. */
  function PutAll(c: Cache, urls: seq<string>, resps: seq<Response>): (r: Cache)
    requires |urls| == |resps|
    ensures r.Keys == c.Keys + set k | 0 <= k < |urls| :: urls[k]
  {
    if urls == [] then c
    else
      var n := |urls| - 1;
      var r := PutAll(c, urls[..n], resps[..n])[urls[n] := resps[n]];
      assert forall k :: 0 <= k < n ==> urls[..n][k] == urls[k];
      r
  }

  /** The responses of a successful `addAll`, in URL order. */
  function Responses(urls: seq<string>, net: Network): (r: seq<Response>)
    requires AllOk(urls, net)
    ensures |r| == |urls| && forall k :: 0 <= k < |urls| ==> r[k] == net(urls[k]).response
  {
    seq(|urls|, k requires 0 <= k < |urls| => net(urls[k]).response)
  }

  /** Lines 11-16: open the shell cache and `addAll` the shell, which stores
      nothing unless every response is OK. Whether the install succeeded,
      and the caches afterwards. */
  function Installed(cs: Caches, net: Network): (bool, Caches) {
    var live := Opened(cs);
    if AllOk(OfflineUrls, net)
    then (true, live[CacheName := PutAll(live[CacheName], OfflineUrls, Responses(OfflineUrls, net))])
    else (false, live)
  }

  /** Lines 18-27: only the cache named `CacheName` survives. */
  function Pruned(cs: Caches): (r: Caches)
    ensures r.Keys <= {CacheName}
    ensures CacheName in cs ==> CacheName in r && r[CacheName] == cs[CacheName]
  {
    map k | k in cs && k == CacheName :: cs[k]
  }

  // ------------------------------------------------------------ the worker

  class Worker {
    var caches: Caches

    constructor (cs: Caches)
      ensures caches == cs
    {
      caches := cs;
    }

    /** `caches.open(CacheName)`. */
    method OpenShell()
      modifies this
      ensures caches == Opened(old(caches))
    {
      if CacheName !in caches {
        caches := caches[CacheName := map[]];
      }
    }

    /** The install listener: fetch every shell URL, and store them all
        only when every response is OK. */
    method Install(net: Network) returns (installed: bool)
      modifies this
      ensures (installed, caches) == Installed(old(caches), net)
    {
      OpenShell();
      var fetched: seq<Response> := [];
      for i := 0 to |OfflineUrls|
        invariant |fetched| == i
        invariant AllOk(OfflineUrls[..i], net)
        invariant forall k :: 0 <= k < i ==> fetched[k] == net(OfflineUrls[k]).response
        invariant caches == Opened(old(caches))
      {
        var f := net(OfflineUrls[i]);
        if !f.Delivered? || !Ok(f.response) {
          assert !AllOk(OfflineUrls, net);
          return false;
        }
        fetched := fetched + [f.response];
        assert OfflineUrls[..i + 1] == OfflineUrls[..i] + [OfflineUrls[i]];
      }
      assert OfflineUrls[..|OfflineUrls|] == OfflineUrls;
      assert fetched == Responses(OfflineUrls, net);
      var shell := caches[CacheName];
      for j := 0 to |OfflineUrls|
        invariant shell == PutAll(caches[CacheName], OfflineUrls[..j], fetched[..j])
      {
        shell := shell[OfflineUrls[j] := fetched[j]];
        assert OfflineUrls[..j + 1][..j] == OfflineUrls[..j];
        assert fetched[..j + 1][..j] == fetched[..j];
      }
      assert fetched[..|OfflineUrls|] == fetched;
      caches := caches[CacheName := shell];
      installed := true;
    }

    /** The activate listener: delete every cache whose name is not
        `CacheName`. */
    method Activate()
      modifies this
      ensures caches == Pruned(old(caches))
    {
      var keys := caches.Keys;
      while keys != {}
        invariant keys <= old(caches).Keys
        invariant forall k :: k in caches <==> k in old(caches) && (k == CacheName || k in keys)
        invariant forall k :: k in caches ==> caches[k] == old(caches)[k]
        decreases keys
      {
        var k :| k in keys;
        if k != CacheName {
          caches := caches - {k};
        }
        keys := keys - {k};
      }
      assert caches.Keys == Pruned(old(caches)).Keys;
    }

    /** The fetch listener. */
    method HandleFetch(req: Request, net: Network) returns (h: Handling)
      modifies this
      ensures (h, caches) == Fetch(old(caches), req, net)
    {
      if req.httpMethod != "GET" {
        return NotIntercepted;
      }
      if Includes(req.url, "/me/ticket") {
        h := NetworkFirstFetch(req.url, net);
      } else {
        h := CacheFirstFetch(req.url, net);
      }
    }

    method CacheFirstFetch(url: string, net: Network) returns (h: Handling)
      modifies this
      ensures (h, caches) == CacheFirst(old(caches), url, net)
    {
      OpenShell();
      var cache := caches[CacheName];
      if url in cache {
        return Responded(cache[url]);
      }
      match net(url)
      case NetworkError(e) =>
        h := Rejected(e);
      case Delivered(r) =>
        if r.status == 200 {
          caches := caches[CacheName := cache[url := r]];
        }
        h := Responded(r);
    }

    method NetworkFirstFetch(url: string, net: Network) returns (h: Handling)
      modifies this
      ensures (h, caches) == NetworkFirst(old(caches), url, net)
    {
      OpenShell();
      var cache := caches[CacheName];
      match net(url)
      case Delivered(r) =>
        if r.status == 200 {
          caches := caches[CacheName := cache[url := r]];
        }
        h := Responded(r);
      case NetworkError(e) =>
        if url in cache {
          h := Responded(cache[url]);
        } else {
          h := Rejected(e);
        }
    }
  }
}
