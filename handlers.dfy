/** The request handlers of cmd/main.go: mainProxyHandler (host routing,
    cache lookup, cache hits, the proxy path and the relay to the client,
    cmd/main.go:233-495), serveFileHandler (cmd/main.go:624-649), the
    health probes and the route table of main() (cmd/main.go:148-230). */
module Handlers {
  import opened Wrappers
  import opened Text
  import opened FilePath
  import opened Http
  import opened Routing
  import opened Store
  import opened Cache
  import opened Codec
  import opened Cors
  import opened Upstream

  const Forbidden := "HTTP CODE 403. Forbidden By Tencent EdgeOne……"
  const ForbiddenNoType := "HTTP CODE 403. Can't Find URL Type. Forbidden By Tencent Edge One……"

  /** As Go's server delivers a request, its Host line is in the request's
      host and no longer among the header fields. */
  predicate ServerDelivered(req: RequestValue)
  {
    "Host" !in req.fields
  }

  /** X-Forwarded-Host as cmd/main.go:252 computes it: the Host header
      field, read after the server has moved it out of the header map. */
  function ForwardedHostAsWritten(req: RequestValue): string
  {
    FieldGet(req.fields, "Host")
  }

  /** X-Forwarded-Host as the origin needs it: the host the client asked
      for, which the next statement replaces by the origin's host. */
  function ForwardedHost(req: RequestValue): string
  {
    req.host
  }

  /** As written, every forwarded request carries an empty X-Forwarded-Host;
      the corrected value is the client's Host line. */
  lemma ForwardedHostLost(req: RequestValue)
    requires ServerDelivered(req)
    ensures ForwardedHostAsWritten(req) == ""
    ensures ForwardedHost(req) == req.host
    ensures req.host != "" ==> ForwardedHostAsWritten(req) != ForwardedHost(req)
  {
  }

  /** The request after cmd/main.go:249-253: it is addressed to the origin,
      and X-Forwarded-Host is set from the Host header field. */
  function Forwarded(req: RequestValue, target: Url): RequestValue
  {
    RequestValue(req.verb, target.host, req.url.(scheme := target.scheme, host := target.host),
                 req.fields["X-Forwarded-Host" := [ForwardedHostAsWritten(req)]])
  }

  /** The headers of a cache hit before its body is written: the CORS fields
      of serveFileWithCORS, then the Content-Type of the extension when one
      is known. */
  function HitFields(f: Fields, mime: string, allowed: bool): Fields
  {
    var c := ServeFileCors(f, allowed);
    if mime != "" then c["Content-Type" := [mime]] else c
  }

  /** A cache hit (cmd/main.go:272-325): CORS headers, then the file with
      the Content-Type of its extension, compressed as Accept-Encoding
      asks; a file that cannot be read is a 500 with the error text. */
  function CacheHitSpec(env: Env, store: Store, cachePath: string, acceptEncoding: string, allowed: bool,
                        client: WriterState): WriterState
  {
    match Read(store, cachePath)
    case ReadFailed(msg) => ErrorSpec(client.(fields := ServeFileCors(client.fields, allowed)), msg, 500)
    case Data(data) => ServedFile(env, env.mimeByExt(Ext(cachePath)), data, EncoderFor(acceptEncoding), allowed, client)
  }

  /** A readable cache file of type `mime` served with the encoder `e`. */
  function ServedFile(env: Env, mime: string, data: seq<byte>, e: Encoder, allowed: bool, client: WriterState): WriterState
  {
    var typed := client.(fields := HitFields(client.fields, mime, allowed));
    match EncodingName(e)
    case Some(name) => WriteSpec(typed.(fields := typed.fields["Content-Encoding" := [name]]), env.compress(e, data))
    case None => WriteSpec(typed, data)
  }

  /** On a client nothing was written to, a readable cache file is sent
      with status 200, the CORS headers and either its own bytes or a
      compressed form labelled with its coding; a client that decodes by
      that label gets the file back whenever the codec round-trips. */
  lemma CacheHitServesFile(env: Env, store: Store, cachePath: string, acceptEncoding: string, allowed: bool)
    requires cachePath in store.files
    ensures var r := CacheHitSpec(env, store, cachePath, acceptEncoding, allowed, FreshWriter);
      var e := EncoderFor(acceptEncoding);
      && r.wroteHeader && r.code == 200
      && (AllowOrigin in r.sent <==> allowed)
      && Values(r.sent, AllowMethods) == ["*"] && Values(r.sent, AllowHeaders) == ["*"]
      && (e == Identity ==> r.body == store.files[cachePath] && "Content-Encoding" !in r.sent)
      && (e != Identity && env.inflate(DecoderOf(e), env.compress(e, store.files[cachePath])) == Some(store.files[cachePath]) ==>
            ReadBody(env, FieldGet(r.sent, "Content-Encoding"), r.body) == Some(store.files[cachePath]))
  {
    var e := EncoderFor(acceptEncoding);
    var mime := env.mimeByExt(Ext(cachePath));
    CacheHitShape(env, store, cachePath, acceptEncoding, allowed);
    SentFieldsCors(mime, e, allowed);
    if e != Identity {
      NameSelectsDecoder(e);
    }
  }

  /** The headers a fresh client receives with a cache hit. */
  function SentFields(mime: string, e: Encoder, allowed: bool): Fields
  {
    var typed := HitFields(map[], mime, allowed);
    match EncodingName(e)
    case Some(name) => typed["Content-Encoding" := [name]]
    case None => typed
  }

  /** The status, headers and body of a cache hit on a fresh client. */
  lemma CacheHitShape(env: Env, store: Store, cachePath: string, acceptEncoding: string, allowed: bool)
    requires cachePath in store.files
    ensures var r := CacheHitSpec(env, store, cachePath, acceptEncoding, allowed, FreshWriter);
      var e := EncoderFor(acceptEncoding);
      && r.wroteHeader && r.code == 200
      && r.sent == SentFields(env.mimeByExt(Ext(cachePath)), e, allowed)
      && r.body == (if e == Identity then store.files[cachePath] else env.compress(e, store.files[cachePath]))
  {
    assert Read(store, cachePath) == Data(store.files[cachePath]);
    ServedFileShape(env, env.mimeByExt(Ext(cachePath)), store.files[cachePath], EncoderFor(acceptEncoding), allowed);
  }

  lemma ServedFileShape(env: Env, mime: string, data: seq<byte>, e: Encoder, allowed: bool)
    ensures var r := ServedFile(env, mime, data, e, allowed, FreshWriter);
      && r.wroteHeader && r.code == 200
      && r.sent == SentFields(mime, e, allowed)
      && r.body == (if e == Identity then data else env.compress(e, data))
  {
  }

  /** The headers of a cache hit on a fresh client carry the CORS policy of
      serveFileWithCORS, and a Content-Encoding exactly when the body is
      compressed, naming the coding. */
  lemma SentFieldsCors(mime: string, e: Encoder, allowed: bool)
    ensures AllowOrigin in SentFields(mime, e, allowed) <==> allowed
    ensures Values(SentFields(mime, e, allowed), AllowMethods) == ["*"]
    ensures Values(SentFields(mime, e, allowed), AllowHeaders) == ["*"]
    ensures e == Identity ==> "Content-Encoding" !in SentFields(mime, e, allowed)
    ensures e != Identity ==> FieldGet(SentFields(mime, e, allowed), "Content-Encoding") == EncodingName(e).GetOr("")
  {
  }

  /** A cache file the hook stored is found by the next GET of the same
      path and served byte for byte to a client that accepts no
      compression. */
  lemma StoredResponseIsServed(env: Env, ctx: Ctx, status: int, fields: Fields, body: seq<byte>, outPath: string,
                               store: Store, client: WriterState, acceptEncoding: string, allowed: bool)
    requires ctx.isGet && 200 <= status < 300 && ShouldCache(FieldGet(fields, "Content-Type"), outPath)
    requires ctx.cachePath == CacheKey(ctx.hostDir, ctx.path, ctx.isHtml)
    requires '\\' !in ctx.hostDir && '\\' !in ctx.path
    requires EncoderFor(acceptEncoding) == Identity
    ensures var m := ModifySpec(env, ctx, status, fields, body, outPath, store, client);
      !m.failed ==>
        && Exists(m.store, ctx.cachePath)
        && CacheHitSpec(env, m.store, ctx.cachePath, acceptEncoding, allowed, FreshWriter).body == m.body
  {
    var m := ModifySpec(env, ctx, status, fields, body, outPath, store, client);
    WriteTargetIsKey(ctx.hostDir, ctx.path, ctx.isHtml, ctx.host);
    CachedResponseDescribesBody(env, ctx, status, fields, body, outPath, store, client);
    if !m.failed {
      assert ctx.cachePath in m.store.files;
      CacheHitServesFile(env, m.store, ctx.cachePath, acceptEncoding, allowed);
    }
  }

  method ServeCacheHit(env: Env, store: Store, cachePath: string, acceptEncoding: string, allowed: bool,
                       w: ResponseWriter)
    modifies w, w.header
    ensures w.State() == CacheHitSpec(env, store, cachePath, acceptEncoding, allowed, old(w.State()))
  {
    ServeFileWithCors(w.header, allowed);
    var read := Read(store, cachePath);
    if read.ReadFailed? {
      Error(w, read.msg, 500);
      return;
    }
    var data := read.bytes;
    var mime := env.mimeByExt(Ext(cachePath));
    if mime != "" {
      w.header.Set("Content-Type", mime);
    }
    var e := EncoderFor(acceptEncoding);
    if e == Brotli {
      w.header.Set("Content-Encoding", "br");
      w.Write(env.compress(e, data));
    } else if e == Gzip {
      w.header.Set("Content-Encoding", "gzip");
      w.Write(env.compress(e, data));
    } else {
      w.Write(data);
    }
  }

  /** cmd/main.go:458-495 on the recorder's state: the CORS policy is
      applied to the recorder's headers, which reach the client only for a
      2xx status; the status and the body always do. */
  function RelaySpec(rec: WriterState, allowed: bool, client: WriterState): WriterState
  {
    var f := CorsPolicy(rec.fields, allowed);
    var c := if 200 <= rec.code < 300 then client.(fields := Merge(client.fields, f)) else client;
    WriteSpec(WriteHeaderSpec(c, rec.code), rec.body)
  }

  /** On a client nothing was written to, the relay sends the recorder's
      status and body, and its headers, CORS included, exactly when the
      status is 2xx; otherwise the client gets no header at all. */
  lemma RelayGatesHeaders(rec: WriterState, allowed: bool)
    ensures var r := RelaySpec(rec, allowed, FreshWriter);
      && r.code == rec.code && r.body == rec.body && r.wroteHeader
      && (200 <= rec.code < 300 ==>
            && (forall k :: k in r.sent <==> k in CorsPolicy(rec.fields, allowed) && CorsPolicy(rec.fields, allowed)[k] != [])
            && (forall k :: k in r.sent ==> r.sent[k] == CorsPolicy(rec.fields, allowed)[k])
            && (AllowOrigin in r.sent <==> allowed)
            && r.sent[AllowMethods] == ["*"] && FrameOptions !in r.sent)
      && (!(200 <= rec.code < 300) ==> r.sent == map[])
  {
    var f := CorsPolicy(rec.fields, allowed);
    MergeFacts(map[], f);
    CorsPolicyFacts(rec.fields, allowed);
  }

  /** On the connection the relayed body survives exactly when the
      recorder's status allows a body and the request is not HEAD: an
      origin 304, which the hook turns into "Page Status Error", reaches
      the client without a body. */
  lemma RelayDeliveredBody(rec: WriterState, allowed: bool, isHead: bool)
    ensures DeliveredBody(RelaySpec(rec, allowed, FreshWriter), isHead)
         == if BodyAllowed(rec.code) && !isHead then rec.body else []
    ensures rec.code == 304 ==> DeliveredBody(RelaySpec(rec, allowed, FreshWriter), isHead) == []
  {
    RelayGatesHeaders(rec, allowed);
  }

  method Relay(rec: ResponseWriter, w: ResponseWriter, allowed: bool)
    requires rec != w && rec.header != w.header
    modifies rec.header, w, w.header
    ensures rec.header.fields == CorsPolicy(old(rec.header.fields), allowed)
    ensures w.State() == RelaySpec(old(rec.State()), allowed, old(w.State()))
  {
    ApplyCorsPolicy(rec.header, allowed);
    if 200 <= rec.code < 300 {
      CopyHeader(w.header, rec.header);
    }
    w.WriteHeader(rec.code);
    w.Write(rec.body);
  }

  /** What a handler leaves behind: the client writer, the request (which
      mainProxyHandler readdresses) and the cache. */
  datatype Handled = Handled(client: WriterState, request: RequestValue, store: Store)

  /** mainProxyHandler from the moment both lookups succeeded. */
  function RoutedSpec(env: Env, t: RouteTable, store: Store, req: RequestValue, fwd: RequestValue, host: string,
                      target: Url, siteType: string, client: WriterState): Handled
  {
    var isGet := req.verb == "GET";
    var isHtml := Contains(FieldGet(req.fields, "Accept"), "text/html");
    var hostDir := SiteDir(siteType);
    var path := fwd.url.path;
    var cachePath := if isGet then CacheKey(hostDir, path, isHtml) else Join([CacheDir, hostDir, path]);
    var allowed := OriginAllowed(t, RequesterOrigin(fwd.fields, env.parseUrl));
    if isGet && Exists(store, cachePath) then
      Handled(CacheHitSpec(env, store, cachePath, FieldGet(fwd.fields, "Accept-Encoding"), allowed, client), fwd, store)
    else
      var p := ProxySpec(env, Ctx(isGet, isHtml, host, hostDir, path, cachePath), Outbound(fwd, target), store,
                         FreshWriter, client);
      Handled(RelaySpec(p.rec, allowed, p.client), fwd, p.store)
  }

  /** mainProxyHandler: a host without a route is refused with 403, a
      routed request is readdressed to its origin and answered from the
      cache or through the proxy. */
  function MainSpec(env: Env, t: RouteTable, store: Store, req: RequestValue, client: WriterState): Handled
  {
    var host := StripPort(req.host);
    if host !in t.targets then Handled(ErrorSpec(client, Forbidden, 403), req, store)
    else
      var target := t.targets[host];
      var fwd := Forwarded(req, target);
      if host !in t.targetTypes then Handled(ErrorSpec(client, ForbiddenNoType, 403), fwd, store)
      else RoutedSpec(env, t, store, req, fwd, host, target, t.targetTypes[host], client)
  }

  /** A host without a route gets the 403 page whatever the origin and the
      cache would say; nothing is forwarded or stored. */
  lemma UnroutedHostForbidden(env: Env, other: Env, t: RouteTable, store: Store, req: RequestValue, client: WriterState)
    requires StripPort(req.host) !in t.targets
    ensures MainSpec(env, t, store, req, client) == MainSpec(other, t, store, req, client)
    ensures MainSpec(env, t, store, req, client) == Handled(ErrorSpec(client, Forbidden, 403), req, store)
    ensures var r := MainSpec(env, t, store, req, FreshWriter).client;
      r.code == 403 && FieldGet(r.sent, "Content-Type") == "text/plain; charset=utf-8" && r.body == Utf8(Forbidden + "\n")
  {
  }

  /** With tables loaded from a configuration, every routed host has a
      site class, so the "Can't Find URL Type" 403 is never sent. */
  lemma LoadedTablesAlwaysTyped(env: Env, t: RouteTable, c: Config, mainUrl: Url, resUrl: Url, store: Store,
                                req: RequestValue, client: WriterState)
    requires LoadedFrom(t, c, mainUrl, resUrl)
    requires StripPort(req.host) in t.targets
    ensures var host := StripPort(req.host);
      MainSpec(env, t, store, req, client)
        == RoutedSpec(env, t, store, req, Forwarded(req, t.targets[host]), host, t.targets[host], t.targetTypes[host], client)
  {
    TypeLookupNeverFails(t, c, mainUrl, resUrl, req.host);
  }

  /** When the origin cannot be reached, a request that misses the cache is
      answered 502 with an empty body and without any header, CORS
      included. */
  lemma UnreachableOriginIs502(env: Env, t: RouteTable, store: Store, req: RequestValue)
    requires StripPort(req.host) in t.targets && StripPort(req.host) in t.targetTypes
    requires var host := StripPort(req.host);
      var fwd := Forwarded(req, t.targets[host]);
      var cachePath := CacheKey(SiteDir(t.targetTypes[host]), fwd.url.path, Contains(FieldGet(req.fields, "Accept"), "text/html"));
      !(req.verb == "GET" && Exists(store, cachePath)) && env.exchange(Outbound(fwd, t.targets[host])).None?
    ensures MainSpec(env, t, store, req, FreshWriter) ==
      Handled(WriterState(map[], true, 502, map[], []), Forwarded(req, t.targets[StripPort(req.host)]), store)
  {
  }

  /** The request a routed client sends is addressed to its origin and
      keeps its method, path and every header; X-Forwarded-Host copies the
      Host header field, so as Go's server delivers a request it is empty. */
  lemma ForwardedRequestShape(req: RequestValue, target: Url)
    ensures var f := Forwarded(req, target);
      && f.verb == req.verb && f.host == target.host
      && f.url == Url(target.scheme, target.host, req.url.path)
      && FieldGet(f.fields, "X-Forwarded-Host") == FieldGet(req.fields, "Host")
      && (ServerDelivered(req) ==> Values(f.fields, "X-Forwarded-Host") == [""])
      && (forall k :: k != "X-Forwarded-Host" ==> (k in f.fields <==> k in req.fields))
      && (forall k :: k != "X-Forwarded-Host" && k in req.fields ==> f.fields[k] == req.fields[k])
  {
  }

  method MainProxyHandler(env: Env, t: RouteTable, store: Store, r: Request, w: ResponseWriter)
    returns (store': Store)
    requires r.header != w.header
    modifies r, r.header, w, w.header
    ensures Handled(w.State(), r.Value(), store') == MainSpec(env, t, store, old(r.Value()), old(w.State()))
  {
    ghost var req := r.Value();
    store' := store;
    var isGet := r.verb == "GET";
    var isHtml := Contains(r.header.Get("Accept"), "text/html");
    var host := StripPort(r.host);
    if host !in t.targets {
      Error(w, Forbidden, 403);
      return;
    }
    var target := t.targets[host];
    r.url := r.url.(scheme := target.scheme, host := target.host);
    r.header.Set("X-Forwarded-Host", r.header.Get("Host"));
    r.host := target.host;
    assert r.Value() == Forwarded(req, target);
    if host !in t.targetTypes {
      Error(w, ForbiddenNoType, 403);
      return;
    }
    var hostDir := SiteDir(t.targetTypes[host]);
    var cachePath := LookupCachePath(hostDir, r.url.path, isGet, isHtml);
    if isGet && Exists(store, cachePath) {
      var allowed := OriginAllowed(t, RequesterOrigin(r.header.fields, env.parseUrl));
      ServeCacheHit(env, store, cachePath, r.header.Get("Accept-Encoding"), allowed, w);
      return;
    }
    var rec := new ResponseWriter();
    var ctx := Ctx(isGet, isHtml, host, hostDir, r.url.path, cachePath);
    store' := ServeProxy(env, ctx, target, r, rec, w, store);
    var allowed := OriginAllowed(t, RequesterOrigin(r.header.fields, env.parseUrl));
    Relay(rec, w, allowed);
  }

  /** serveFileHandler(filePath): the proxy's CORS policy on the client's
      headers, then http.ServeFile, whose headers, status and body come
      from the environment. */
  function StaticSpec(env: Env, t: RouteTable, file: string, req: RequestValue, client: WriterState): WriterState
  {
    var allowed := OriginAllowed(t, RequesterOrigin(req.fields, env.parseUrl));
    var c := client.(fields := CorsPolicy(client.fields, allowed));
    var served := env.serveFile(file, req);
    WriteSpec(WriteHeaderSpec(c.(fields := c.fields + served.fields), served.status), served.body)
  }

  /** A static file reaches the client with the CORS decision of the proxy
      path, unless http.ServeFile sets one of those headers itself. */
  lemma StaticFileCors(env: Env, t: RouteTable, file: string, req: RequestValue)
    requires env.serveFile(file, req).fields.Keys !! PolicyKeys
    ensures var r := StaticSpec(env, t, file, req, FreshWriter);
      var allowed := OriginAllowed(t, RequesterOrigin(req.fields, env.parseUrl));
      && r.code == env.serveFile(file, req).status && r.body == env.serveFile(file, req).body
      && (AllowOrigin in r.sent <==> allowed)
      && r.sent[AllowMethods] == ["*"] && r.sent[AllowHeaders] == ["*"] && FrameOptions !in r.sent
  {
    var allowed := OriginAllowed(t, RequesterOrigin(req.fields, env.parseUrl));
    CorsPolicyFacts(map[], allowed);
  }

  method ServeFileHandler(env: Env, t: RouteTable, file: string, r: Request, w: ResponseWriter)
    requires r.header != w.header
    modifies w, w.header
    ensures w.State() == StaticSpec(env, t, file, r.Value(), old(w.State()))
  {
    var allowed := OriginAllowed(t, RequesterOrigin(r.header.fields, env.parseUrl));
    ApplyCorsPolicy(w.header, allowed);
    var served := env.serveFile(file, r.Value());
    w.header.SetFrom(served.fields);
    w.WriteHeader(served.status);
    w.Write(served.body);
  }

  /** The healthz and readyz handlers. */
  method Healthy(w: ResponseWriter)
    modifies w
    ensures w.State() == WriteSpec(WriteHeaderSpec(old(w.State()), 200), Bytes("OK"))
  {
    w.WriteHeader(200);
    w.Write(Bytes("OK"));
  }

  /** The handlers registered on the default ServeMux. */
  datatype Endpoint = RefreshCache | Health | StaticFile(file: string) | MainProxy

  /** The directory of the files that replace the origin's. */
  const Overwrite := "overwrite/"

  /** The static routes: each is served from a file under overwrite/. */
  const StaticRoutes: map<string, string> := map[
    "/config.ini" := Overwrite + "config.ini",
    "/breaking-news.html" := Overwrite + "breaking-news.html",
    "/lib/local-trans.js" := Overwrite + "local-trans.js",
    "/lib/nipplejs.js" := Overwrite + "nipplejs.js",
    "/res/locale/zh-CN.json" := Overwrite + "zh-CN.json",
    "/res/locale/zh-TW.json" := Overwrite + "zh-CN.json",
    "/robots.txt" := Overwrite + "robots.txt"]

  /** ServeMux routing: patterns without a trailing slash match their path
      exactly, and "/" takes every other path. */
  function Dispatch(path: string): Endpoint
  {
    if path == "/proxy-svc/api/v1/refresh-cache" then RefreshCache
    else if path == "/proxy-svc/api/healthz" || path == "/proxy-svc/api/readyz" then Health
    else if path in StaticRoutes then StaticFile(StaticRoutes[path])
    else MainProxy
  }

  /** The Taiwanese locale is served from the mainland file, servers.ini is
      proxied, and every static route reads a file below overwrite/. */
  lemma DispatchFacts()
    ensures Dispatch("/res/locale/zh-TW.json") == StaticFile(Overwrite + "zh-CN.json")
    ensures Dispatch("/servers.ini") == MainProxy
    ensures Dispatch("/") == MainProxy
    ensures forall p :: p in StaticRoutes ==> Dispatch(p).StaticFile? && HasPrefix(Dispatch(p).file, Overwrite)
  {
    forall p | p in StaticRoutes
      ensures Dispatch(p) == StaticFile(StaticRoutes[p]) && HasPrefix(StaticRoutes[p], Overwrite)
    {
      assert |p| > 1 && p[1] != 'p';
      var name := StaticRoutes[p][|Overwrite|..];
      assert StaticRoutes[p] == Overwrite + name;
    }
  }
}
