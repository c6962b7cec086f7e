# ra2web-proxy request core in Dafny

ra2web-proxy is a caching reverse proxy that sits in front of the origins
of a browser game. It holds two origin base URLs, `main` and `res`, and a
list of host names for each. A request is routed by its Host line, with
the port removed. A host with no route gets a 403 page.

**The cache.** Cached files live on disk under `./_cacheRaw`, one
directory per site class (`main.site`, `res.site`), and mirror the URL
path. An extension-less path requested with `Accept: text/html` gets an
`index.html` below it.
- **Cache hit.** A GET whose cache file exists is served from disk with
  CORS headers and a Content-Type taken from the extension. The file is
  compressed with brotli or gzip when `Accept-Encoding` mentions the
  coding.
- **Miss.** Any other request goes through `httputil.ReverseProxy` into
  an `httptest` recorder. A `ModifyResponse` hook examines each GET answer:
  - A cacheable 2xx answer is decoded, and the root document and the
    worker script are patched. Content-Length is fixed,
    Content-Encoding is removed, and the body is written to the cache.
  - A 404 answer is replaced by the local error page. Any other non-2xx
    answer becomes "Page Status Error".
- **Relay.** The recorder is relayed to the client under a fixed CORS
  policy. The recorder's headers reach the client only for a 2xx status.

**Other endpoints.**
- A refresh endpoint lets callers on an API allow-list delete a site's
  cache, or one file in it.
- Two health probes answer 200 "OK".
- A few fixed paths are served from local files under `overwrite/`.

The model covers one request at a time:
- **The disk is a value.** `Store.Store` holds the files, the
  directories and the paths the process may not write. Each handler
  takes one and returns the next.
- **Go's objects are classes.** The header maps, response writers,
  requests and upstream responses that Go mutates in place are classes
  whose methods state their new state through a specification function
  (`Http.WriteSpec`, `Upstream.ModifySpec`, `Handlers.MainSpec`, …).
- **Outside collaborators are functions in `Upstream.Env`.** These are
  the network exchange with the origin, the codecs, `mime.TypeByExtension`,
  `url.Parse`, the goquery rewrite of the root document and
  `http.ServeFile`.

Behaviour worth noting:

- **Cache writes.** A write is a plain `os.MkdirAll` followed by
  `os.WriteFile`. There is no temporary file, no lock, no rename and no
  per-key single-flight.
- **A failed cache write fails the request.** The hook returns the error,
  ReverseProxy answers 502, and the client gets that 502. The client
  does not get the fetched body (`Upstream.ProxyOutcome`).
- **No conditional requests on a cache hit.** There is no ETag, no
  Last-Modified and no `Server` header.
- **The worker-script patch is not idempotent.** It replaces only the
  first occurrence of each guard, so a script that carries a guard twice
  changes again on a second pass (`Transform.RewriteFirstOccurrenceOnly`).
- **The log send can block the handler.** The log channel is buffered
  with room for 1000 messages (cmd/main.go:65). The send at
  cmd/main.go:510 comes after the response is written, and it waits once
  the buffer is full. Messages are never dropped (not modelled, see below).
- **The encoder is chosen by substring.** `"gzip;q=1, br;q=0"` selects
  brotli (`Codec.QualityValuesIgnored`).

Behaviour of the code that the model makes explicit:

- **The API allow-list is matched against the whole Host line, port
  included.** That line is chosen by the client
  (`Routing.IsDomainAllowedCallApi`).
- **The refresh endpoint joins `filePath` unchecked.** The value
  `"../../config/config.json"` deletes `config/config.json`, outside the
  cache (`Refresh.RefreshEscapesCache`).
- **The port is stripped at the first ':'.** An IPv6 literal is cut to
  `"["` (`Routing.StripPortOfIpv6Literal`).
- **Line 336 never decides the key.** The key the hook recomputes for
  `"/"` at cmd/main.go:336 is always overwritten by the rule at
  cmd/main.go:338, because `"/"` has no extension
  (`Cache.RecomputeCachePath`).
- **The main-site host check fires only for a request path with a
  backslash.** It splits the key at backslashes. A key built from a path
  without one never matches, and the cache file is then written where
  the lookup reads it (`Cache.WriteTargetIsKey`). A decoded path can
  hold a backslash, for example `GET /x%5Cgame.example%5Cy` on host
  `game.example`. The check then matches (`Cache.BackslashHostMatches`),
  and the file is written with the host replaced by `main.site`, away
  from the key the lookup reads.
- **A non-HTML GET of "/" cannot be served from the cache.** Its key is
  the site directory itself. Once that directory exists, the lookup
  finds it, `os.ReadFile` fails on it, and the client gets a 500
  (`Cache.RootKeys`, `Handlers.CacheHitSpec`).
- **A 404 whose error page is missing is served empty.** The
  `"Page 404"` fallback is overwritten by the empty content of the failed
  read (`Upstream.NotFoundFallbackLost`, see Findings).
- **X-Forwarded-Host is always empty.** It is copied from the Host header
  field, which Go's server has already moved out of the header map
  (`Handlers.ForwardedHostLost`, see Findings).
- **An origin 304 loses its error page.** The hook gives the recorder
  "Page Status Error", but Go's server sends no body with a 304
  (`Handlers.RelayDeliveredBody`).
- **Static routes.** `/res/locale/zh-TW.json` is served from the zh-CN file,
  and `/servers.ini` is proxied, since its static route is commented out
  (`Handlers.DispatchFacts`).

## Model

| member | source | states |
|---|---|---|
| Text.Index | cmd/main.go:239 | the first position at which the pattern occurs, -1 exactly when it occurs nowhere (strings.Contains is Index >= 0) |
| Text.ReplaceFirst | cmd/main.go:393-394 | strings.Replace with n = 1: without the pattern the text is unchanged; otherwise the bytes before its first occurrence and after it are kept and the replacement sits in its place |
| Text.SplitJoin | cmd/main.go:240 | strings.Split then strings.Join gives the string back, and no part contains the separator |
| Text.SplitConcat | cmd/main.go:610 | splitting at a separator splits the two sides independently |
| Text.Itoa | cmd/main.go:400 | strconv.Itoa yields at least one decimal digit, with no leading zero |
| Text.ItoaRoundTrip | cmd/main.go:400 | the Content-Length text reads back as the number it was made from |
| Text.Utf8 | cmd/main.go:243 | the bytes http.Error writes for a message: at least one byte per character, the characters themselves for ASCII text |
| FilePath.Ext | cmd/main.go:282 | filepath.Ext is a suffix that starts with '.', holds no other '.' and no separator, and is empty exactly when every '.' of the path is followed by a separator |
| FilePath.JoinByElements | cmd/main.go:263-270 | when its first argument is non-empty, filepath.Join resolves the elements of all its arguments together and is rooted exactly when that first argument is |
| FilePath.ElementsOfJoinWith | cmd/main.go:263-270 | the elements of joined arguments are the elements of each argument in order |
| FilePath.ResolveNoDotDot | cmd/main.go:263-270 | without ".." elements, cleaning only drops empty and "." elements |
| FilePath.JoinAvoids | cmd/main.go:263-270 | filepath.Join introduces no character other than '/' and '.' |
| Http.MergeFacts | cmd/main.go:487-491 | adding every value of one header map to another keeps the earlier values first and adds exactly the keys with values |
| Http.MergeStep | cmd/main.go:487-491 | adding the values of one more key continues the merge |
| Http.CopyHeader | cmd/main.go:487-491 | the nested Add loop leaves the destination equal to the merge of the two maps, whatever order Go visits the keys in |
| Http.Header.Set | cmd/main.go:400 | Header.Set replaces the key's values by the one value |
| Http.Header.Del | cmd/main.go:402 | Header.Del removes the key and nothing else |
| Http.Header.Add | cmd/main.go:490 | Header.Add appends the value after the key's existing values |
| Http.ResponseWriter.WriteHeader | cmd/main.go:494 | only the first WriteHeader fixes the status and the headers the client receives |
| Http.ResponseWriter.Write | cmd/main.go:495 | Write implies WriteHeader(200) and appends the bytes |
| Http.Error | cmd/main.go:242-244 | http.Error drops Content-Length, sets a plain-text Content-Type and nosniff, writes the status and the message with a newline |
| Routing.LoadRoutes | cmd/main.go:126-139 | loading fails exactly when a non-empty host list has an unparseable origin URL, otherwise each host maps to its origin and site class, res entries overriding main ones, and the CORS allow-list is the configured set |
| Routing.StripPortOfName | cmd/main.go:240 | a host name without ':' is found with or without a port |
| Routing.StripPortOfIpv6Literal | cmd/main.go:240 | an IPv6 literal Host line loses everything after "[" |
| Routing.RouteOfLoadedTable | cmd/main.go:130-139 | after loading, a res entry routes to the res origin, a main-only entry to the main origin, any other name nowhere, with or without a port |
| Routing.TypeLookupNeverFails | cmd/main.go:255-259 | after loading, every routed host has a site class |
| Routing.IsDomainAllowedCallApi | cmd/main.go:698-705 | the caller is allowed exactly when its Host line is on the api_endpoint list |
| Routing.OriginAllowedIffConfigured | cmd/main.go:126-128 | after loading, an origin gets Access-Control-Allow-Origin exactly when it is configured |
| Store.Read | cmd/main.go:275 | os.ReadFile returns data exactly for a regular file |
| Store.WriteThenRead | cmd/main.go:418-426 | after a successful MkdirAll and WriteFile the file reads back as the written bytes, and no other file changes |
| Store.WriteKeepsValid | cmd/main.go:418-426 | writing never makes a path both a file and a directory |
| Store.ParentDirsOfChild | cmd/main.go:418 | the directory MkdirAll makes for a name below a one-element directory is that directory |
| Store.RemoveAllClears | cmd/main.go:181 | after a successful os.RemoveAll nothing at or below the path exists |
| Store.RemoveClears | cmd/main.go:183 | after a successful os.Remove the path no longer exists |
| Store.RemoveAllKeeps | cmd/main.go:181 | os.RemoveAll leaves every file outside the removed path as it was |
| Cache.LookupCachePath | cmd/main.go:263-271 | a GET's cache key is the site path, with index.html below it for an extension-less HTML request; other methods keep the plain join |
| Cache.RecomputeCachePath | cmd/main.go:334-340 | the hook's key is the lookup's key: the host rule for "/" is always overridden, and a key computed by the lookup comes back unchanged |
| Cache.KeyLayout | cmd/main.go:263-271 | without "..", a cache key is "_cacheRaw", the site directory, the path's names and possibly index.html, joined by '/' |
| Cache.KeyInSiteDir | cmd/main.go:263-271 | without "..", every cache key lies at or below its site directory |
| Cache.RootKeys | cmd/main.go:265-270 | the HTML key of "/" is the site's index.html, and the non-HTML key of "/" is the site directory itself |
| Cache.ShouldCacheMeaning | cmd/main.go:552-575 | a response is cached exactly when its Content-Type contains one of the seven kept types or the upstream path has an extension |
| Cache.NoBackslashNoMatch | cmd/main.go:608-622 | a key without a backslash never matches the main-site host check |
| Cache.BackslashHostMatches | cmd/main.go:608-622 | a backslash key whose second segment is the host matches |
| Cache.WriteTargetIsKey | cmd/main.go:404-427 | a key built from '/' paths is written exactly where the lookup reads it |
| Codec.EncoderFor | cmd/main.go:289-325 | brotli exactly when Accept-Encoding contains "br", gzip exactly when it contains "gzip" but not "br", no compression otherwise |
| Codec.DecoderFor | cmd/main.go:348-358 | gzip, deflate and brotli readers exactly for those three exact tokens, the body as it is for anything else |
| Codec.NameSelectsDecoder | cmd/main.go:293-307 | the Content-Encoding name the proxy sends selects, on the way back, the decoder of the same coding |
| Codec.QualityValuesIgnored | cmd/main.go:291-305 | the encoder ignores quality values: a client refusing br with q=0 still gets br |
| Codec.DecoderExamples | cmd/main.go:348-358 | an upper-case token or a list of codings is not decoded |
| Transform.RewriteWorkerScript | cmd/main.go:391-397 | every path other than the worker script is stored as fetched |
| Transform.RewriteWithoutGuards | cmd/main.go:391-397 | a worker script with neither guard is stored byte for byte |
| Transform.RewriteKeepsOtherBytes | cmd/main.go:391-397 | the worker script is stored with the first occurrence of each guard cut out and "true" in its place, every other byte kept |
| Transform.RewriteFirstOccurrenceOnly | cmd/main.go:393-394 | only the first occurrence of a guard is replaced, so a second pass over a script carrying the guard twice changes it again |
| Cors.RequesterOriginChoice | cmd/main.go:470-476 | the Origin header wins; without it a parseable Referer gives scheme "://" host; with neither the origin is empty |
| Cors.CorsPolicyFacts | cmd/main.go:464-482 | after the policy Access-Control-Allow-Origin is present exactly for an allowed origin, methods and headers are "*", X-Frame-Options is gone and every other field is unchanged |
| Cors.CorsPolicyIdempotent | cmd/main.go:464-482 | applying the policy twice is applying it once |
| Cors.ServeFileCorsAgrees | cmd/main.go:577-591 | serveFileWithCORS agrees with the proxy policy on a header holding none of its keys, and keeps an inherited Allow-Origin for a refused origin |
| Cors.ApplyCorsPolicy | cmd/main.go:464-482 | the Del and Set calls leave the header map equal to the policy of the old map |
| Cors.ServeFileWithCors | cmd/main.go:577-591 | the three Set calls leave the header map equal to serveFileWithCORS of the old map |
| Upstream.SingleJoiningSlashJoins | cmd/main.go:331 | the Director joins the origin path and the request path with exactly one '/' |
| Upstream.NotFoundFallbackLost | cmd/main.go:434-446 | as written, a missing error page leaves an empty 404 body; with the fallback kept it is "Page 404"; a readable page is served in both |
| Upstream.ModifyTouches | cmd/main.go:332-457 | the hook leaves non-GETs alone, can change the cache or fail only on a cacheable 2xx, and writes to the client only when the root document cannot be rewritten |
| Upstream.CachedResponseDescribesBody | cmd/main.go:399-427 | on the caching branch Content-Length reads back as the body's length, Content-Encoding is gone, every other header is kept and the cache file holds exactly the body |
| Upstream.CachedBodyIsDecoded | cmd/main.go:341-363 | on every path other than "/" and the worker script, the stored body is the decoded origin body, and the origin body itself when no decoder is selected |
| Upstream.ErrorStatusPages | cmd/main.go:429-453 | a GET with a non-2xx status never fails or touches the cache, and carries the error page as text/html with a matching Content-Length; a 404 whose page file is missing has an empty body and Content-Length 0 |
| Upstream.ModifyResponse | cmd/main.go:332-457 | the hook's effect on the response, the cache and the client is ModifySpec, including the 404 page as written |
| Upstream.ProxyOutcome | cmd/main.go:460-461 | into a fresh recorder, any transport or hook error becomes a bare 502; otherwise the recorder holds the origin's status and the modified headers and body |
| Upstream.ServeProxy | cmd/main.go:331-461 | ReverseProxy.ServeHTTP's effect on the recorder, the client and the cache is ProxySpec |
| Handlers.ForwardedHostLost | cmd/main.go:252 | as written, X-Forwarded-Host is always empty; corrected, it is the client's Host line |
| Handlers.ForwardedRequestShape | cmd/main.go:250-253 | the forwarded request keeps its method, path and headers, is addressed to the origin, and its X-Forwarded-Host copies the Host header field, which is empty as Go's server delivers a request |
| Handlers.CacheHitServesFile | cmd/main.go:272-326 | a readable cache file is sent with 200 and the CORS headers, as its own bytes or compressed under a Content-Encoding the client can decode back to the file |
| Handlers.SentFieldsCors | cmd/main.go:273-307 | a cache hit carries serveFileWithCORS's headers and a Content-Encoding exactly when compressed, naming the coding |
| Handlers.StoredResponseIsServed | cmd/main.go:263-272 | a response the hook stored is found by the next GET of the path and served byte for byte without compression |
| Handlers.ServeCacheHit | cmd/main.go:272-326 | the cache-hit branch's effect on the client is CacheHitSpec |
| Handlers.RelayGatesHeaders | cmd/main.go:485-495 | the client gets the recorder's status and body, and its headers with the CORS policy exactly when the status is 2xx, none of the recorder's headers otherwise |
| Handlers.RelayDeliveredBody | cmd/main.go:494-495 | on the connection the relayed body survives exactly when the status allows a body and the request is not HEAD, so a relayed 304 carries none |
| Http.DeliveredBody | cmd/main.go:495 | Go's server sends no body for a 1xx, 204 or 304 status or a HEAD request, and otherwise sends the body written |
| Handlers.Relay | cmd/main.go:464-495 | the relay's effect on the recorder's header and the client is the policy and RelaySpec |
| Handlers.UnroutedHostForbidden | cmd/main.go:240-245 | a host without a route gets the 403 page whatever the origin and the cache hold, and nothing is forwarded or stored |
| Handlers.LoadedTablesAlwaysTyped | cmd/main.go:255-259 | with loaded tables the "Can't Find URL Type" 403 is never sent |
| Handlers.UnreachableOriginIs502 | cmd/main.go:460-495 | a cache miss whose origin cannot be reached is a 502 with an empty body and none of the proxy's headers, CORS included |
| Handlers.MainProxyHandler | cmd/main.go:236-498 | mainProxyHandler's effect on the client, the request and the cache is MainSpec |
| Handlers.StaticFileCors | cmd/main.go:625-649 | a static file carries the proxy's CORS decision and ServeFile's status and body |
| Handlers.ServeFileHandler | cmd/main.go:625-649 | serveFileHandler's effect on the client is StaticSpec |
| Handlers.Healthy | cmd/main.go:196-212 | the probes answer 200 "OK" |
| Handlers.DispatchFacts | cmd/main.go:214-224 | zh-TW is served from the zh-CN file, servers.ini and "/" go to the proxy, and every static route reads a file below overwrite/ |
| Refresh.RefreshOutcomes | cmd/main.go:157-193 | an undecodable body or a missing site or cache type is a 400 that deletes nothing; otherwise 204 exactly when the deletion succeeds and 500 when it fails |
| Refresh.RefreshClearsSite | cmd/main.go:173-181 | refreshing a whole site leaves no cache key of that site existing |
| Refresh.RefreshRemovesPath | cmd/main.go:174-183 | refreshing one path leaves that path not existing |
| Refresh.RefreshClimbs | cmd/main.go:173-176 | a file path climbing two levels names a path outside the cache directory |
| Refresh.RefreshEscapesCache | cmd/main.go:173-176 | "../../config/config.json" targets the proxy's own configuration file |
| Refresh.RefreshCacheHandler | cmd/main.go:150-193 | an allowed caller gets RefreshSpec, and every other caller gets mainProxyHandler |

## Left out

- The goquery rewrite of the root document (cmd/main.go:365-389) is `Upstream.Env.rewriteRoot`. It is an HTML parser, and the model keeps only its failure and its output.
- modifyHTML (cmd/main.go:652-696) is never called by the handlers, and it is not modelled.
- The brotli, gzip and flate codecs are `Env.inflate` and `Env.compress`. `mime.TypeByExtension` is `Env.mimeByExt` and `url.Parse` is `Env.parseUrl`. These are library code outside the program.
- http.ServeFile is `Env.serveFile`. It is library code, and its headers, status and body are taken as given.
- ServeMux path cleaning and redirects are not modelled. Dispatch matches the paths registered at cmd/main.go:149-224, and the path is taken as already clean.
- ReverseProxy internals are inside `Env.exchange`: hop-by-hop headers, X-Forwarded-For, trailers and flushing. The model keeps the Director's readdressing, the hook and the default 502 error handler.
- An origin body that fails while ReverseProxy streams it into the recorder is not modelled. This is the non-cached path. ReverseProxy then panics with `http.ErrAbortHandler`, which aborts mainProxyHandler before the relay at cmd/main.go:485-495, and the client sees a dropped connection. `Env.exchange` yields either a whole response or none, the latter answered 502.
- Reading config/config.json and decoding JSON (cmd/main.go:114-124 and 158-162) are parameters. The configuration is a `Routing.Config` value, and the refresh body is an `Option<Refresh.CacheRequest>`.
- The startup fatal errors and ListenAndServe (cmd/main.go:114-124, 229-233 and 520-526) are out of scope. mustParseURL's exit is modelled as `LoadRoutes` returning None.
- The logger goroutine and the log channel (cmd/main.go:144, 499-518 and 528-545) are left out. They are concurrency and I/O with no effect on any response.
- Concurrency between requests is left out. Each request is applied to the cache value as one step.
- The unused `hackCacheDir` variable is left out.
- The deferred Close of the compression writers (cmd/main.go:295-316) is not modelled. `Env.compress` stands for the whole compressed stream.
- Errors from Write on the client are not modelled. They make the handlers return early: at cmd/main.go:495-497 this skips the log send, which is not modelled either.
- Header key canonicalisation is not modelled. Every key the proxy names is already canonical.
- Strings have no byte-level model. Go strings are byte strings, and paths and header values are modelled as `string`, so invalid UTF-8 in them cannot be represented. Every separator and literal the core tests is ASCII, so no modelled decision depends on this.
- The log.Println calls (cmd/main.go:170 and 436) are not modelled.
- Http.ResponseWriter.Write: the client writer records every body, like the recorder does. Go's server suppresses the body of a 1xx, 204 or 304 response or of a HEAD request, and that is stated only on the connection, through `Http.DeliveredBody` and `Handlers.RelayDeliveredBody`.
- Http.ResponseWriter.WriteHeader: the headers Go's server adds on the connection are not part of `sent`. These are Date, a computed Content-Length and a sniffed Content-Type. So "no header" in `Handlers.RelayGatesHeaders` and `Handlers.UnreachableOriginIs502` means none of the proxy's.
- Store.RemoveAll: an error leaves the store unchanged, whereas os.RemoveAll can remove part of the tree before it fails.
- Store.Write: only the directories on the path's own text are created, which approximates MkdirAll(filepath.Dir(p)) on a path that is not clean.
- Store.Exists: only "does not exist" is told apart, and permission errors of os.Stat are not modelled.
- A non-GET's cache key is computed (cmd/main.go:263) but never read, and the model states no more than its value.

## Findings

| source | as written | input that shows it | evidently intended | confidence | as-written member | corrected member |
|---|---|---|---|---|---|---|
| cmd/main.go:434-446 | when views/404page.html cannot be read, the "Page 404" body is set and then overwritten by the empty content of the failed read | an origin 404 for a GET while views/404page.html is missing: the client gets an empty body with Content-Length 0 | the "Page 404" fallback is kept (an else, or a return after setting it) | not executed | Upstream.NotFoundPageAsWritten | Upstream.NotFoundPage |
| cmd/main.go:252 | X-Forwarded-Host is read from the Host header field, which Go's server has already moved into r.Host | any routed request, for example Host "game.example:443": the origin receives an empty X-Forwarded-Host | X-Forwarded-Host carries r.Host, read before it is replaced by the origin's host | not executed | Handlers.ForwardedHostAsWritten | Handlers.ForwardedHost |

The handlers use the as-written members, so each handler contract describes the code as it stands. The corrected members sit beside them, with their properties proved in `Upstream.NotFoundFallbackLost` and `Handlers.ForwardedHostLost`.
