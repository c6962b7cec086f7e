/** The refresh-cache endpoint (cmd/main.go:150-193): callers whose Host
    line is on the api_endpoint list may delete a site's cache directory or
    one path inside it; every other caller is handled as an ordinary proxy
    request. */
module Refresh {
  import opened Wrappers
  import opened Text
  import opened FilePath
  import opened Http
  import opened Routing
  import opened Store
  import opened Cache
  import opened Upstream
  import opened Handlers

  /** The JSON body {"site", "cacheType", "filePath"}; absent members read
      as "". */
  datatype CacheRequest = CacheRequest(site: string, cacheType: string, filePath: string)

  /** The path the endpoint deletes: the site directory, or the file path
      joined below it. */
  function RefreshTarget(req: CacheRequest): string
  {
    var siteDir := Join([CacheDir, req.site + ".site"]);
    if req.filePath != "" then Join([siteDir, req.filePath]) else siteDir
  }

  datatype Refreshed = Refreshed(client: WriterState, store: Store)

  /** The endpoint for an allowed caller, given the decoded body (None when
      it is not valid JSON). */
  function RefreshSpec(store: Store, body: Option<CacheRequest>, client: WriterState): Refreshed
  {
    match body
    case None => Refreshed(ErrorSpec(client, "Invalid request body", 400), store)
    case Some(req) =>
      if req.site == "" || req.cacheType == "" then
        Refreshed(ErrorSpec(client, "Site and CacheType could not empty.", 400), store)
      else
        var target := RefreshTarget(req);
        var deleted := if req.filePath == "" then RemoveAll(store, target) else Remove(store, target);
        match deleted.0
        case Some(err) => Refreshed(ErrorSpec(client, "Failed to delete cache: " + err, 500), deleted.1)
        case None => Refreshed(WriteHeaderSpec(client, 204), deleted.1)
  }

  /** A body that does not decode, or lacks the site or the cache type, is
      a 400 and deletes nothing; a valid one is a 204 exactly when the
      deletion succeeds, and a 500 otherwise. */
  lemma RefreshOutcomes(store: Store, body: Option<CacheRequest>)
    ensures var r := RefreshSpec(store, body, FreshWriter);
      && (body.None? ==> r.client.code == 400 && r.store == store)
      && (body.Some? && (body.value.site == "" || body.value.cacheType == "") ==> r.client.code == 400 && r.store == store)
      && (body.Some? && body.value.site != "" && body.value.cacheType != "" ==>
            var deleted := if body.value.filePath == "" then RemoveAll(store, RefreshTarget(body.value))
                           else Remove(store, RefreshTarget(body.value));
            && r.store == deleted.1
            && (r.client.code == 204 <==> deleted.0.None?)
            && (r.client.code == 500 <==> deleted.0.Some?)
            && (deleted.0.None? ==> r.client.body == [] && r.client.sent == map[]))
  {
  }

  /** A site directory name: the site followed by ".site", without a
      separator. */
  lemma SiteDirIsName(site: string)
    requires Separator !in site
    ensures IsName(site + ".site")
  {
    var hostDir := site + ".site";
    assert forall k :: 0 <= k < |site| ==> hostDir[k] == site[k];
    assert hostDir[|site|..] == ".site";
    assert forall k :: |site| <= k < |hostDir| ==> hostDir[k] == ".site"[k - |site|];
  }

  /** After refreshing a whole site, no cache key of that site exists any
      more, whatever the path and Accept header it was made for. */
  lemma RefreshClearsSite(store: Store, site: string, cacheType: string, path: string, isHtml: bool)
    requires site != "" && cacheType != "" && Separator !in site
    requires "_cacheRaw" !in store.files
    requires "_cacheRaw" + "/" + site + ".site" !in store.unwritable
    requires ".." !in Elements(path)
    ensures var r := RefreshSpec(store, Some(CacheRequest(site, cacheType, "")), FreshWriter);
      r.client.code == 204 && !Exists(r.store, CacheKey(site + ".site", path, isHtml))
  {
    var hostDir := site + ".site";
    SiteDirIsName(site);
    SiteRoot(hostDir);
    var p := "_cacheRaw" + "/" + hostDir;
    assert "_cacheRaw" + "/" + site + ".site" == p;
    assert RefreshTarget(CacheRequest(site, cacheType, "")) == p;
    var top := "_cacheRaw";
    assert Separator !in top;
    ParentDirsOfChild(top, hostDir);
    KeyInSiteDir(hostDir, path, isHtml);
    RemoveAllClears(store, p, CacheKey(hostDir, path, isHtml));
  }

  /** After removing one path, when no directory on its way is a file, that
      path no longer exists. */
  lemma RefreshRemovesPath(store: Store, req: CacheRequest)
    requires Valid(store)
    requires req.site != "" && req.cacheType != "" && req.filePath != ""
    requires !BlockedByFile(store, RefreshTarget(req)) && Remove(store, RefreshTarget(req)).0.None?
    ensures var r := RefreshSpec(store, Some(req), FreshWriter);
      r.client.code == 204 && !Exists(r.store, RefreshTarget(req))
  {
    RemoveClears(store, RefreshTarget(req));
  }

  /** Two names joined by the separator are that path's elements. */
  lemma ElementsOfPair(a: string, b: string)
    requires IsName(a) && IsName(b)
    ensures Elements(a + "/" + b) == [a, b]
  {
    JoinWithCons(a, [b], Separator);
    assert [a] + [b] == [a, b];
    ElementsOfJoinWith([a, b]);
    ElementsOfName(a);
    ElementsOfName(b);
    AllElementsCons(a, [b]);
    AllElementsCons(b, []);
    assert AllElements([]) == [];
  }

  /** The elements of "../../c/d". */
  lemma ElementsOfClimb(c: string, d: string)
    requires IsName(c) && IsName(d)
    ensures Elements("../../" + c + "/" + d) == ["..", "..", c, d]
  {
    var up := "..";
    var y := up + "/" + up + "/" + c + "/" + d;
    assert "../../" + c + "/" + d == y;
    JoinWithCons(c, [d], Separator);
    JoinWithCons(up, [c, d], Separator);
    JoinWithCons(up, [up, c, d], Separator);
    assert [c] + [d] == [c, d];
    assert [up] + [c, d] == [up, c, d];
    assert [up] + [up, c, d] == [up, up, c, d];
    assert JoinWith([up, up, c, d], Separator) == y;
    ElementsOfJoinWith([up, up, c, d]);
    ElementsOfName(up);
    ElementsOfName(c);
    ElementsOfName(d);
    AllElementsCons(up, [up, c, d]);
    AllElementsCons(up, [c, d]);
    AllElementsCons(c, [d]);
    AllElementsCons(d, []);
    assert AllElements([]) == [];
  }

  /** Two ".." after two names cancel them. */
  lemma ResolveClimb(top: string, hostDir: string, c: string, d: string)
    requires IsName(top) && IsName(hostDir) && IsName(c) && IsName(d)
    ensures Resolve([], [top, hostDir, "..", "..", c, d], false) == [c, d]
  {
    var names := [top, hostDir, "..", "..", c, d];
    assert names[1..] == [hostDir, "..", "..", c, d];
    assert [] + [top] == [top];
    assert Resolve([], names, false) == Resolve([top], names[1..], false);
    assert names[1..][1..] == ["..", "..", c, d];
    assert names[1..][0] == hostDir && hostDir != "..";
    assert [top] + [hostDir] == [top, hostDir];
    assert Resolve([top], names[1..], false) == Resolve([top, hostDir], ["..", "..", c, d], false);
    assert [top, hostDir][..1] == [top];
    assert Resolve([top, hostDir], ["..", "..", c, d], false) == Resolve([top], ["..", c, d], false);
    assert [top][..0] == [];
    assert Resolve([top], ["..", c, d], false) == Resolve([], [c, d], false);
    assert [] + [c] == [c];
    assert Resolve([], [c, d], false) == Resolve([c], [d], false);
    assert Resolve([c], [d], false) == Resolve([c, d], [], false);
  }

  /** Join cleans "..": two of them climb out of any site directory of a
      one-element cache directory. */
  lemma EscapeIn(top: string, hostDir: string, c: string, d: string)
    requires IsName(top) && IsName(hostDir) && IsName(c) && IsName(d)
    ensures Join([top + "/" + hostDir, "../../" + c + "/" + d]) == c + "/" + d
  {
    var x := top + "/" + hostDir;
    var y := "../../" + c + "/" + d;
    ElementsOfPair(top, hostDir);
    ElementsOfClimb(c, d);
    AllElementsCons(x, [y]);
    AllElementsCons(y, []);
    assert AllElements([]) == [];
    assert AllElements([x, y]) == [top, hostDir, "..", "..", c, d];
    assert x[0] == top[0];
    JoinByElements([x, y]);
    ResolveClimb(top, hostDir, c, d);
    JoinWithCons(c, [d], Separator);
    assert [c] + [d] == [c, d];
  }

  /** A file path that climbs two levels names a path outside the site
      directory and outside the cache directory. */
  lemma RefreshClimbs(site: string, cacheType: string, c: string, d: string)
    requires Separator !in site && IsName(c) && IsName(d)
    ensures RefreshTarget(CacheRequest(site, cacheType, "../../" + c + "/" + d)) == c + "/" + d
  {
    var hostDir := site + ".site";
    SiteDirIsName(site);
    SiteRoot(hostDir);
    var top := "_cacheRaw";
    assert IsName(top);
    EscapeIn(top, hostDir, c, d);
  }

  /** The file path is joined without any check, so a caller on the
      allow-list can name a file outside the cache: "../../config/config.json"
      under any site deletes the proxy's own configuration file. */
  lemma RefreshEscapesCache(site: string, cacheType: string)
    requires Separator !in site
    ensures RefreshTarget(CacheRequest(site, cacheType, "../../config/config.json")) == "config/config.json"
    ensures !Under(RefreshTarget(CacheRequest(site, cacheType, "../../config/config.json")), "_cacheRaw")
  {
    ConfigFileNames();
    RefreshClimbs(site, cacheType, "config", "config.json");
  }

  /** The configuration file's path, in names. */
  lemma ConfigFileNames()
    ensures IsName("config") && IsName("config.json")
    ensures "../../" + "config" + "/" + "config.json" == "../../config/config.json"
    ensures "config" + "/" + "config.json" == "config/config.json"
    ensures !Under("config/config.json", "_cacheRaw")
  {
    var q := "config/config.json";
    assert q[0] == 'c' && "_cacheRaw/"[0] == '_';
  }

  /** The route: callers off the allow-list get mainProxyHandler instead. */
  method RefreshCacheHandler(env: Env, t: RouteTable, c: Config, store: Store, r: Request, w: ResponseWriter,
                             body: Option<CacheRequest>)
    returns (store': Store)
    requires r.header != w.header
    modifies r, r.header, w, w.header
    ensures old(r.host) in c.apiEndpoint ==>
      Refreshed(w.State(), store') == RefreshSpec(store, body, old(w.State())) && r.Value() == old(r.Value())
    ensures old(r.host) !in c.apiEndpoint ==>
      Handled(w.State(), r.Value(), store') == MainSpec(env, t, store, old(r.Value()), old(w.State()))
  {
    var allowed := IsDomainAllowedCallApi(r.host, c);
    if !allowed {
      store' := MainProxyHandler(env, t, store, r, w);
      return;
    }
    store' := store;
    if body.None? {
      Error(w, "Invalid request body", 400);
      return;
    }
    var req := body.value;
    if req.site == "" || req.cacheType == "" {
      Error(w, "Site and CacheType could not empty.", 400);
      return;
    }
    var targetPath := Join([CacheDir, req.site + ".site"]);
    if req.filePath != "" {
      targetPath := Join([targetPath, req.filePath]);
    }
    var deleted;
    if req.filePath == "" {
      deleted := RemoveAll(store, targetPath);
    } else {
      deleted := Remove(store, targetPath);
    }
    store' := deleted.1;
    if deleted.0.Some? {
      Error(w, "Failed to delete cache: " + deleted.0.value, 500);
      return;
    }
    w.WriteHeader(204);
  }
}
