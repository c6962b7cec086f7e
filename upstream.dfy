/** The proxy path of mainProxyHandler: the request httputil.ReverseProxy
    sends to the origin, the ModifyResponse hook that decodes, patches and
    caches a 2xx response and replaces the body of any other
    (cmd/main.go:329-456), and the way ReverseProxy relays the outcome into
    the httptest recorder. */
module Upstream {
  import opened Wrappers
  import opened Text
  import opened FilePath
  import opened Http
  import opened Store
  import opened Cache
  import opened Codec
  import opened Transform

  /** What the goquery rewrite of the root document gives: the rendered
      page, or a failure to parse or to render it. */
  datatype RootRewrite = Rewritten(html: seq<byte>) | ParseFailed | RenderFailed

  /** The collaborators outside the model, as functions of their inputs:
      the round trip to the origin (None is a transport error), the
      gzip/flate/brotli readers run to the end (None is a read error), the
      compressing writers, mime.TypeByExtension, url.Parse, the root
      document rewrite and http.ServeFile. */
  datatype Env = Env(
    exchange: RequestValue -> Option<UpstreamMsg>,
    inflate: (Decoder, seq<byte>) -> Option<seq<byte>>,
    compress: (Encoder, seq<byte>) -> seq<byte>,
    mimeByExt: string -> string,
    parseUrl: string -> Option<Url>,
    rewriteRoot: seq<byte> -> RootRewrite,
    serveFile: (string, RequestValue) -> UpstreamMsg)

  /** The error page read for an origin 404. */
  const NotFoundFile := "views/404page.html"

  /** The body read through the reader the Content-Encoding selects; an
      unknown coding is read as it is. */
  function ReadBody(env: Env, contentEncoding: string, body: seq<byte>): Option<seq<byte>>
  {
    var d := DecoderFor(contentEncoding);
    if d == Passthrough then Some(body) else env.inflate(d, body)
  }

  /** singleJoiningSlash, which the Director of NewSingleHostReverseProxy
      uses to put the origin's base path in front of the request path. */
  function SingleJoiningSlash(a: string, b: string): string
  {
    var aslash := |a| > 0 && a[|a| - 1] == '/';
    var bslash := |b| > 0 && b[0] == '/';
    if aslash && bslash then a + b[1..]
    else if !aslash && !bslash then a + "/" + b
    else a + b
  }

  /** `s` without one trailing '/'. */
  function TrimTrailingSlash(s: string): string
  {
    if |s| > 0 && s[|s| - 1] == '/' then s[..|s| - 1] else s
  }

  /** `s` without one leading '/'. */
  function TrimLeadingSlash(s: string): string
  {
    if |s| > 0 && s[0] == '/' then s[1..] else s
  }

  /** Exactly one '/' joins the two halves, whichever of them brought it;
      an origin without a base path leaves a rooted request path alone. */
  lemma SingleJoiningSlashJoins(a: string, b: string)
    ensures SingleJoiningSlash(a, b) == TrimTrailingSlash(a) + "/" + TrimLeadingSlash(b)
    ensures Rooted(b) ==> SingleJoiningSlash("", b) == b
  {
    if |a| > 0 && a[|a| - 1] == '/' {
      assert a == a[..|a| - 1] + "/";
    }
    if |b| > 0 && b[0] == '/' {
      assert b == "/" + b[1..];
    }
  }

  /** The outbound request after the Director: the origin's scheme and
      host, and the joined path. */
  function Outbound(req: RequestValue, target: Url): RequestValue
  {
    req.(url := Url(target.scheme, target.host, SingleJoiningSlash(target.path, req.url.path)))
  }

  /** The handler variables the hook closes over: the method and Accept
      tests, the port-less host, the site directory, the inbound path and
      the cache key the lookup computed. */
  datatype Ctx = Ctx(isGet: bool, isHtml: bool, host: string, hostDir: string, path: string, cachePath: string)

  /** What the hook leaves behind: the response's headers and body, whether
      it returned an error, the cache and the client writer (which a failed
      root rewrite writes to directly). */
  datatype Modified = Modified(fields: Fields, body: seq<byte>, failed: bool, store: Store, client: WriterState)

  /** The 404 page as cmd/main.go:434-446 builds it: the "Page 404"
      fallback is overwritten by the empty content of the failed read. */
  function NotFoundPageAsWritten(page: ReadResult): seq<byte>
  {
    match page
    case Data(content) => content
    case ReadFailed(_) => []
  }

  /** The 404 page with the fallback kept when the file cannot be read. */
  function NotFoundPage(page: ReadResult): seq<byte>
  {
    match page
    case Data(content) => content
    case ReadFailed(_) => Bytes("Page 404")
  }

  /** A missing error page leaves the written 404 body empty, while the
      fallback the code builds first is never empty; with the file present
      the two agree. */
  lemma NotFoundFallbackLost(msg: string, content: seq<byte>)
    ensures NotFoundPageAsWritten(ReadFailed(msg)) == []
    ensures NotFoundPage(ReadFailed(msg)) == Bytes("Page 404") && |NotFoundPage(ReadFailed(msg))| == 8
    ensures NotFoundPageAsWritten(Data(content)) == NotFoundPage(Data(content)) == content
  {
  }

  /** The response headers after a body of the given bytes was set. */
  function PageFields(f: Fields, page: seq<byte>): Fields
  {
    f["Content-Length" := [Itoa(|page|)]]["Content-Type" := ["text/html"]]
  }

  /** The ModifyResponse hook, on the response's status, headers and body
      and the path of the request sent upstream. */
  function ModifySpec(env: Env, ctx: Ctx, status: int, fields: Fields, body: seq<byte>, outPath: string,
                      store: Store, client: WriterState): Modified
  {
    if !ctx.isGet then Modified(fields, body, false, store, client)
    else if 200 <= status < 300 then
      if !ShouldCache(FieldGet(fields, "Content-Type"), outPath) then Modified(fields, body, false, store, client)
      else match ReadBody(env, FieldGet(fields, "Content-Encoding"), body)
        case None => Modified(fields, body, true, store, client)
        case Some(plain) =>
          var rooted := if ctx.path == "/" then env.rewriteRoot(plain) else Rewritten(plain);
          match rooted
          case ParseFailed => Modified(fields, body, true, store, ErrorSpec(client, "Unable to parse HTML", 500))
          case RenderFailed => Modified(fields, body, true, store, ErrorSpec(client, "Unable to render modified HTML", 500))
          case Rewritten(html) =>
            var b := RewriteWorkerScript(ctx.path, html);
            var f := fields["Content-Length" := [Itoa(|b|)]] - {"Content-Encoding"};
            var written := Write(store, CacheWriteTarget(ctx.cachePath, ctx.host), b);
            Modified(f, b, !written.ok, written.store, client)
    else if status == 404 then
      var page := NotFoundPageAsWritten(Read(store, NotFoundFile));
      Modified(PageFields(fields, page), page, false, store, client)
    else
      var page := Bytes("Page Status Error");
      Modified(PageFields(fields, page), page, false, store, client)
  }

  /** The hook leaves everything but GETs alone, writes the cache and can
      fail only on a cacheable 2xx, and writes to the client only when the
      root document cannot be rewritten. */
  lemma ModifyTouches(env: Env, ctx: Ctx, status: int, fields: Fields, body: seq<byte>, outPath: string,
                      store: Store, client: WriterState)
    ensures var m := ModifySpec(env, ctx, status, fields, body, outPath, store, client);
      && (!ctx.isGet ==> m == Modified(fields, body, false, store, client))
      && (m.store != store || m.failed ==>
            ctx.isGet && 200 <= status < 300 && ShouldCache(FieldGet(fields, "Content-Type"), outPath))
      && (m.client != client ==> ctx.isGet && 200 <= status < 300 && ctx.path == "/" && m.failed)
      && (ctx.isGet && 200 <= status < 300 && !ShouldCache(FieldGet(fields, "Content-Type"), outPath) ==>
            m == Modified(fields, body, false, store, client))
  {
  }

  /** On the caching branch the relayed headers describe the stored body:
      Content-Length reads back as its length, Content-Encoding is gone,
      every other header is kept, and the cache file holds exactly those
      bytes. */
  lemma CachedResponseDescribesBody(env: Env, ctx: Ctx, status: int, fields: Fields, body: seq<byte>, outPath: string,
                                    store: Store, client: WriterState)
    requires ctx.isGet && 200 <= status < 300 && ShouldCache(FieldGet(fields, "Content-Type"), outPath)
    ensures var m := ModifySpec(env, ctx, status, fields, body, outPath, store, client);
      !m.failed ==>
        && DecimalValue(FieldGet(m.fields, "Content-Length")) == |m.body|
        && "Content-Encoding" !in m.fields
        && (forall k :: k != "Content-Length" && k != "Content-Encoding" ==>
              (k in m.fields <==> k in fields) && (k in fields ==> m.fields[k] == fields[k]))
        && Read(m.store, CacheWriteTarget(ctx.cachePath, ctx.host)) == Data(m.body)
  {
    var m := ModifySpec(env, ctx, status, fields, body, outPath, store, client);
    if !m.failed {
      ItoaRoundTrip(|m.body|);
      WriteThenRead(store, CacheWriteTarget(ctx.cachePath, ctx.host), m.body, "");
    }
  }

  /** The stored body is the decoded origin body, patched only for the root
      document and the worker script. */
  lemma CachedBodyIsDecoded(env: Env, ctx: Ctx, status: int, fields: Fields, body: seq<byte>, outPath: string,
                            store: Store, client: WriterState, plain: seq<byte>)
    requires ctx.isGet && 200 <= status < 300 && ShouldCache(FieldGet(fields, "Content-Type"), outPath)
    requires ReadBody(env, FieldGet(fields, "Content-Encoding"), body) == Some(plain)
    requires ctx.path != "/" && ctx.path != WorkerScriptPath
    ensures ModifySpec(env, ctx, status, fields, body, outPath, store, client).body == plain
    ensures DecoderFor(FieldGet(fields, "Content-Encoding")) == Passthrough ==>
      ModifySpec(env, ctx, status, fields, body, outPath, store, client).body == body
  {
  }

  /** A GET answered with any other status never fails and never touches
      the cache: a 404 carries the error page, which is empty with a
      Content-Length of 0 when the file is missing, anything else "Page
      Status Error", both as text/html with a Content-Length that reads
      back as the body's length. */
  lemma ErrorStatusPages(env: Env, ctx: Ctx, status: int, fields: Fields, body: seq<byte>, outPath: string,
                         store: Store, client: WriterState)
    requires ctx.isGet && !(200 <= status < 300)
    ensures var m := ModifySpec(env, ctx, status, fields, body, outPath, store, client);
      && !m.failed && m.store == store && m.client == client
      && FieldGet(m.fields, "Content-Type") == "text/html"
      && DecimalValue(FieldGet(m.fields, "Content-Length")) == |m.body|
      && (status == 404 && NotFoundFile in store.files ==> m.body == store.files[NotFoundFile])
      && (status == 404 && NotFoundFile !in store.files ==> m.body == [] && FieldGet(m.fields, "Content-Length") == "0")
      && (status != 404 ==> m.body == Bytes("Page Status Error"))
  {
    var m := ModifySpec(env, ctx, status, fields, body, outPath, store, client);
    ItoaRoundTrip(|m.body|);
  }

  /** The hook on a live response; the client writer is the one a failed
      root rewrite writes its error to. */
  method ModifyResponse(env: Env, ctx: Ctx, resp: Response, store: Store, w: ResponseWriter)
    returns (failed: bool, store': Store)
    requires ctx.isGet ==> ctx.cachePath == CacheKey(ctx.hostDir, ctx.path, ctx.isHtml)
    requires resp.header != w.header
    modifies resp, resp.header, w, w.header
    ensures Modified(resp.header.fields, resp.body, failed, store', w.State())
         == ModifySpec(env, ctx, resp.statusCode, old(resp.header.fields), old(resp.body), resp.requestPath,
                       store, old(w.State()))
  {
    failed, store' := false, store;
    if !ctx.isGet {
      return;
    }
    var cachePath := RecomputeCachePath(ctx.cachePath, ctx.host, ctx.hostDir, ctx.path, ctx.isHtml);
    if 200 <= resp.statusCode < 300 {
      if ShouldCache(resp.header.Get("Content-Type"), resp.requestPath) {
        var decoded := ReadBody(env, resp.header.Get("Content-Encoding"), resp.body);
        if decoded.None? {
          return true, store;
        }
        var body := decoded.value;
        if ctx.path == "/" {
          match env.rewriteRoot(body) {
            case ParseFailed =>
              Error(w, "Unable to parse HTML", 500);
              return true, store;
            case RenderFailed =>
              Error(w, "Unable to render modified HTML", 500);
              return true, store;
            case Rewritten(html) =>
              body := html;
          }
        }
        body := RewriteWorkerScript(ctx.path, body);
        resp.body := body;
        resp.header.Set("Content-Length", Itoa(|body|));
        resp.header.Del("Content-Encoding");
        var written := Write(store, CacheWriteTarget(cachePath, ctx.host), body);
        failed, store' := !written.ok, written.store;
      }
    } else if resp.statusCode == 404 {
      var read := Read(store, NotFoundFile);
      var content := if read.Data? then read.bytes else [];
      if read.ReadFailed? {
        var errorPage := Bytes("Page 404");
        resp.body := errorPage;
        resp.header.Set("Content-Length", Itoa(|errorPage|));
        resp.header.Set("Content-Type", "text/html");
      }
      resp.body := content;
      resp.header.Set("Content-Length", Itoa(|content|));
      resp.header.Set("Content-Type", "text/html");
    } else {
      var page := Bytes("Page Status Error");
      resp.body := page;
      resp.header.Set("Content-Length", Itoa(|page|));
      resp.header.Set("Content-Type", "text/html");
    }
  }

  /** The recorder, client writer and cache after ReverseProxy.ServeHTTP. */
  datatype Proxied = Proxied(rec: WriterState, client: WriterState, store: Store)

  /** ReverseProxy.ServeHTTP into the recorder: a transport error or a hook
      error is answered by the default error handler with a bare 502;
      otherwise the (modified) headers are added to the recorder's, then
      the status and the body are written. */
  function ProxySpec(env: Env, ctx: Ctx, out: RequestValue, store: Store, rec: WriterState, client: WriterState): Proxied
  {
    match env.exchange(out)
    case None => Proxied(WriteHeaderSpec(rec, 502), client, store)
    case Some(msg) =>
      var m := ModifySpec(env, ctx, msg.status, msg.fields, msg.body, out.url.path, store, client);
      if m.failed then Proxied(WriteHeaderSpec(rec, 502), m.client, m.store)
      else Proxied(WriteSpec(WriteHeaderSpec(rec.(fields := Merge(rec.fields, m.fields)), msg.status), m.body),
                   m.client, m.store)
  }

  /** Into a fresh recorder, the proxy answers 502 with no header and no
      body on any error, and otherwise records the origin's status with the
      modified headers and body. */
  lemma ProxyOutcome(env: Env, ctx: Ctx, out: RequestValue, store: Store, client: WriterState)
    ensures var p := ProxySpec(env, ctx, out, store, FreshWriter, client);
      match env.exchange(out)
      case None => p.rec == WriterState(map[], true, 502, map[], []) && p.store == store && p.client == client
      case Some(msg) =>
        var m := ModifySpec(env, ctx, msg.status, msg.fields, msg.body, out.url.path, store, client);
        && p.store == m.store && p.client == m.client
        && (m.failed ==> p.rec == WriterState(map[], true, 502, map[], []))
        && (!m.failed ==>
              && p.rec.code == msg.status && p.rec.body == m.body
              && (forall k :: k in p.rec.fields <==> k in m.fields && m.fields[k] != [])
              && (forall k :: k in p.rec.fields ==> p.rec.fields[k] == m.fields[k])
              && p.rec.sent == p.rec.fields)
  {
    match env.exchange(out) {
      case None =>
      case Some(msg) =>
        var m := ModifySpec(env, ctx, msg.status, msg.fields, msg.body, out.url.path, store, client);
        MergeFacts(map[], m.fields);
    }
  }

  /** ReverseProxy.ServeHTTP(rec, r) with the Director of the origin
      `target` and the hook above. */
  method ServeProxy(env: Env, ctx: Ctx, target: Url, r: Request, rec: ResponseWriter, w: ResponseWriter, store: Store)
    returns (store': Store)
    requires ctx.isGet ==> ctx.cachePath == CacheKey(ctx.hostDir, ctx.path, ctx.isHtml)
    requires rec != w && rec.header != w.header && r.header != rec.header && r.header != w.header
    modifies rec, rec.header, w, w.header
    ensures Proxied(rec.State(), w.State(), store')
         == ProxySpec(env, ctx, Outbound(r.Value(), target), store, old(rec.State()), old(w.State()))
  {
    var out := Outbound(r.Value(), target);
    var msg := env.exchange(out);
    if msg.None? {
      rec.WriteHeader(502);
      return store;
    }
    var resp := new Response(msg.value, out.url.path);
    var failed;
    failed, store' := ModifyResponse(env, ctx, resp, store, w);
    ghost var m := ModifySpec(env, ctx, msg.value.status, msg.value.fields, msg.value.body, out.url.path, store, old(w.State()));
    assert m == Modified(resp.header.fields, resp.body, failed, store', w.State());
    if failed {
      rec.WriteHeader(502);
    } else {
      CopyHeader(rec.header, resp.header);
      rec.WriteHeader(resp.statusCode);
      rec.Write(resp.body);
    }
  }
}
