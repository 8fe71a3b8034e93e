/** Properties of the offline cache policy: what install stores, what
    activate keeps, which requests reach the network, and what is cached. */
module ServiceWorkerProperties {
  import opened Text
  import opened ServiceWorker

  // ------------------------------------------------------------ install

  /** Putting responses in order, when each URL's response is `f` of it:
      every URL ends up with its response and other entries are kept. */
  lemma {:induction false} PutAllLookup(c: Cache, urls: seq<string>, resps: seq<Response>, f: string -> Response)
    requires |urls| == |resps|
    requires forall k :: 0 <= k < |urls| ==> resps[k] == f(urls[k])
    ensures forall k :: 0 <= k < |urls| ==> PutAll(c, urls, resps)[urls[k]] == f(urls[k])
    ensures forall u :: u in c && u !in urls ==> PutAll(c, urls, resps)[u] == c[u]
  {
    if urls != [] {
      var n := |urls| - 1;
      var u0, r0 := urls[..n], resps[..n];
      forall k | 0 <= k < n
        ensures r0[k] == f(u0[k])
      {
        assert u0[k] == urls[k] && r0[k] == resps[k];
      }
      PutAllLookup(c, u0, r0, f);
      forall k | 0 <= k < |urls|
        ensures PutAll(c, urls, resps)[urls[k]] == f(urls[k])
      {
        if k < n {
          assert u0[k] == urls[k];
        }
      }
      forall u | u in c && u !in urls
        ensures PutAll(c, urls, resps)[u] == c[u]
      {
        assert u !in u0 && u != urls[n];
      }
    }
  }

  /** Install succeeds exactly when every shell URL is fetched with an OK
      status. Then each is stored under its URL with the network's
      response, nothing else in the shell cache changes and no other cache
      is touched; otherwise only the (possibly new, empty) shell cache has
      been opened. */
  lemma InstallStoresShell(cs: Caches, net: Network)
    ensures var r := Installed(cs, net);
            (r.0 <==> AllOk(OfflineUrls, net)) &&
            CacheName in r.1 && r.1.Keys == cs.Keys + {CacheName} &&
            (forall k :: k in cs && k != CacheName ==> r.1[k] == cs[k]) &&
            (!r.0 ==> r.1 == Opened(cs))
    ensures var r := Installed(cs, net);
            var before := Opened(cs)[CacheName];
            r.0 ==>
              r.1[CacheName].Keys == before.Keys + (set k | 0 <= k < |OfflineUrls| :: OfflineUrls[k]) &&
              (forall k :: 0 <= k < |OfflineUrls| ==>
                 net(OfflineUrls[k]).Delivered? && Ok(net(OfflineUrls[k]).response) &&
                 r.1[CacheName][OfflineUrls[k]] == net(OfflineUrls[k]).response) &&
              (forall u :: u in before && u !in OfflineUrls ==> r.1[CacheName][u] == before[u])
  {
    if AllOk(OfflineUrls, net) {
      var f := (u: string) => if net(u).Delivered? then net(u).response else Response(0, "");
      PutAllLookup(Opened(cs)[CacheName], OfflineUrls, Responses(OfflineUrls, net), f);
    }
  }

  // ------------------------------------------------------------ activate

  /** Activation keeps the shell cache untouched, deletes every other one
      and adds nothing; activating twice is activating once. */
  lemma ActivateKeepsOnlyShell(cs: Caches)
    ensures var r := Pruned(cs);
            (forall k :: k in r <==> k in cs && k == CacheName) &&
            (forall k :: k in r ==> r[k] == cs[k]) &&
            Pruned(r) == r
  {
    var r := Pruned(cs);
    assert forall k :: k in r ==> k == CacheName;
    assert Pruned(r).Keys == r.Keys;
  }

  // ------------------------------------------------------------ fetch

  /** Requests other than GET are left to the browser and touch no cache. */
  lemma NonGetNotIntercepted(cs: Caches, req: Request, net: Network)
    requires req.httpMethod != "GET"
    ensures Fetch(cs, req, net) == (NotIntercepted, cs)
  {
  }

  /** A GET that is not for the ticket and finds its URL in the shell cache
      is answered with the cached response whatever the network does, and
      changes nothing. */
  lemma CachedServedWithoutNetwork(cs: Caches, req: Request, net1: Network, net2: Network)
    requires req.httpMethod == "GET" && !Includes(req.url, "/me/ticket")
    requires CacheName in cs && req.url in cs[CacheName]
    ensures Fetch(cs, req, net1) == Fetch(cs, req, net2) == (Responded(cs[CacheName][req.url]), cs)
  {
  }

  /** A ticket request reaches the network first: a delivered response is
      returned even when a copy is cached; when fetch throws the cached copy
      is returned if there is one, and otherwise the error is rethrown. */
  lemma TicketNetworkFirst(cs: Caches, req: Request, net: Network)
    requires req.httpMethod == "GET" && Includes(req.url, "/me/ticket")
    ensures var r := Fetch(cs, req, net);
            var shell := Opened(cs)[CacheName];
            match net(req.url)
            case Delivered(resp) => r.0 == Responded(resp)
            case NetworkError(e) =>
              r.1 == Opened(cs) &&
              r.0 == if req.url in shell then Responded(shell[req.url]) else Rejected(e)
  {
  }

  /** What a GET may do to the caches: the shell cache exists afterwards,
      no cache is deleted, no other cache changes, no shell entry is lost,
      and the only entry that can change or appear is `url`, with a
      status-200 response the network delivered for it. */
  predicate OnlyUrlCached(cs: Caches, url: string, net: Network, after: Caches) {
    var before := Opened(cs)[CacheName];
    CacheName in after && after.Keys == cs.Keys + {CacheName} &&
    (forall k :: k in cs && k != CacheName ==> after[k] == cs[k]) &&
    before.Keys <= after[CacheName].Keys &&
    (forall u :: u in after[CacheName] && u != url ==> u in before && after[CacheName][u] == before[u]) &&
    (url in after[CacheName] ==>
       (url in before && after[CacheName][url] == before[url]) ||
       (net(url) == Delivered(after[CacheName][url]) && after[CacheName][url].status == 200))
  }

  lemma PutIfOkCaches(cs: Caches, url: string, net: Network)
    requires net(url).Delivered?
    ensures OnlyUrlCached(cs, url, net, PutIfOk(Opened(cs), url, net(url).response))
  {
  }

  lemma OpenedCaches(cs: Caches, url: string, net: Network)
    ensures OnlyUrlCached(cs, url, net, Opened(cs))
  {
  }

  lemma {:induction false} OnlyOkResponsesCached(cs: Caches, req: Request, net: Network)
    requires req.httpMethod == "GET"
    ensures OnlyUrlCached(cs, req.url, net, Fetch(cs, req, net).1)
  {
    var live := Opened(cs);
    if net(req.url).Delivered? && (Includes(req.url, "/me/ticket") || req.url !in live[CacheName]) {
      PutIfOkCaches(cs, req.url, net);
    } else {
      OpenedCaches(cs, req.url, net);
    }
  }

  /** A response whose status is not 200, or a thrown fetch, leaves the
      caches as `caches.open` left them. */
  lemma NonOkNotCached(cs: Caches, req: Request, net: Network)
    requires req.httpMethod == "GET"
    requires !(net(req.url).Delivered? && net(req.url).response.status == 200)
    ensures Fetch(cs, req, net).1 == Opened(cs)
  {
  }

  /** A status-200 response the network delivers is returned and stored
      under the URL, for a ticket request and for an uncached one. */
  lemma OkResponseCached(cs: Caches, req: Request, net: Network)
    requires req.httpMethod == "GET"
    requires net(req.url).Delivered? && net(req.url).response.status == 200
    requires Includes(req.url, "/me/ticket") || req.url !in Opened(cs)[CacheName]
    ensures var resp, live := net(req.url).response, Opened(cs);
            Fetch(cs, req, net) == (Responded(resp), live[CacheName := live[CacheName][req.url := resp]])
  {
  }

  // ------------------------------------------------------------ offline use

  /** No URL that contains "/m" contains "/me/ticket". */
  lemma {:induction false} NoTicketWithoutSlashM(s: string)
    requires forall i :: 0 <= i < |s| - 1 ==> !(s[i] == '/' && s[i + 1] == 'm')
    ensures !Includes(s, "/me/ticket")
  {
    forall i | 0 <= i <= |s| - 10
      ensures !OccursAt(s, "/me/ticket", i)
    {
      if s[i] == '/' {
        assert s[i..i + 10][1] == s[i + 1] != 'm';
      } else {
        assert s[i..i + 10][0] == s[i] != '/';
      }
    }
  }

  /** The shell is served cache-first. */
  lemma ShellUrlsNotTickets(u: string)
    requires u in OfflineUrls
    ensures !Includes(u, "/me/ticket")
  {
    NoTicketWithoutSlashM(u);
  }

  /** After a successful install and an activation, every shell URL is
      answered from the cache with the response install fetched, whatever
      the network does now, and nothing changes. */
  lemma ShellServedOffline(cs: Caches, installNet: Network, req: Request, net: Network)
    requires Installed(cs, installNet).0
    requires req.httpMethod == "GET" && req.url in OfflineUrls
    ensures var c := Pruned(Installed(cs, installNet).1);
            Fetch(c, req, net) == (Responded(installNet(req.url).response), c)
  {
    InstallStoresShell(cs, installNet);
    var c := Pruned(Installed(cs, installNet).1);
    var k :| 0 <= k < |OfflineUrls| && OfflineUrls[k] == req.url;
    assert installNet(req.url).Delivered?;
    ShellUrlsNotTickets(req.url);
    CachedServedWithoutNetwork(c, req, net, net);
  }
}
