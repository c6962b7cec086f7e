/** Where mainProxyHandler looks for and stores cached responses
    (cmd/main.go:260-271, 333-340, 403-426), which responses it keeps
    (shouldCache, cmd/main.go:552-575) and the Windows-style host check
    that chooses an alternative file name (checkMainSiteHostMatch,
    cmd/main.go:608-622). */
module Cache {
  import opened Text
  import opened FilePath
  import opened Store

  /** The cacheDir variable. */
  const CacheDir := "./_cacheRaw"
  const IndexFile := "index.html"
  /** The site directory the host-match branch writes into. */
  const MainSiteDir := "main.site"

  /** The directory of one site class: targetURLType + ".site". */
  function SiteDir(siteType: string): string
  {
    siteType + ".site"
  }

  /** A single path element that Clean leaves alone. */
  predicate IsName(s: string)
  {
    s != "" && s != "." && s != ".." && Separator !in s
  }

  /** The cache file of a GET: the path under the site directory, with an
      index.html below it when the client accepts HTML and the path has no
      extension. */
  function CacheKey(hostDir: string, path: string, isHtml: bool): string
  {
    KeyIn(CacheDir, IndexFile, hostDir, path, isHtml)
  }

  /** The same rule for a cache directory `dir` and an index file `index`. */
  function KeyIn(dir: string, index: string, hostDir: string, path: string, isHtml: bool): string
  {
    if isHtml && Ext(path) == "" then Join([dir, hostDir, path, index])
    else Join([dir, hostDir, path])
  }

  /** cmd/main.go:263-271: the key is first the plain path, and for a GET it
      is reassigned for "/" and then for any extension-less HTML path. The
      rule for "/" never decides anything, since "/" has no extension. */
  method LookupCachePath(hostDir: string, path: string, isGet: bool, isHtml: bool) returns (cachePath: string)
    ensures isGet ==> cachePath == CacheKey(hostDir, path, isHtml)
    ensures !isGet ==> cachePath == Join([CacheDir, hostDir, path])
  {
    cachePath := Join([CacheDir, hostDir, path]);
    if isGet {
      if isHtml && path == "/" {
        cachePath := Join([CacheDir, hostDir, IndexFile]);
      }
      if isHtml && Ext(path) == "" {
        cachePath := Join([CacheDir, hostDir, path, IndexFile]);
      }
    }
  }

  /** cmd/main.go:335-340, inside ModifyResponse: the first reassignment
      uses the host name instead of the site directory, but it only fires
      for "/", which the second reassignment always overrides. The host
      therefore never shows in the result, and a key computed by the
      lookup comes back unchanged. */
  method RecomputeCachePath(cachePath: string, host: string, hostDir: string, path: string, isHtml: bool)
    returns (p: string)
    ensures isHtml && Ext(path) == "" ==> p == Join([CacheDir, hostDir, path, IndexFile])
    ensures !(isHtml && Ext(path) == "") ==> p == cachePath
    ensures cachePath == CacheKey(hostDir, path, isHtml) ==> p == cachePath
  {
    p := cachePath;
    if isHtml && path == "/" {
      p := Join([CacheDir, host, IndexFile]);
    }
    if isHtml && Ext(path) == "" {
      p := Join([CacheDir, hostDir, path, IndexFile]);
    }
  }

  /** A relative directory written "./name" has the single element name. */
  lemma ElementsOfDotSlash(name: string)
    requires IsName(name)
    ensures Elements("./" + name) == [name]
  {
    assert "./" + name == "." + [Separator] + name;
    SplitConcat(".", name, Separator);
    SplitNoSep(".", Separator);
    SplitNoSep(name, Separator);
    var parts := [".", name];
    assert parts[1..] == [name];
    assert parts[1..][1..] == [];
    assert Names(parts) == Names(parts[1..]);
    assert Names(parts[1..]) == [name] + Names([]);
  }

  /** The last arguments of the filepath.Join call that makes a key. */
  function KeyTail(path: string, index: string, indexed: bool): seq<string>
  {
    if indexed then [path, index] else [path]
  }

  /** The names a cache key is made of, in order. */
  function KeyNames(hostDir: string, path: string, indexed: bool): seq<string>
  {
    ["_cacheRaw", hostDir] + Elements(path) + (if indexed then [IndexFile] else [])
  }

  lemma AllElementsOfKeyTail(path: string, index: string, indexed: bool)
    requires IsName(index)
    ensures AllElements(KeyTail(path, index, indexed)) == Elements(path) + (if indexed then [index] else [])
  {
    var tail: seq<string> := if indexed then [index] else [];
    if indexed {
      ElementsOfName(index);
      AllElementsCons(index, []);
      assert [index] + [] == tail;
    }
    assert AllElements([]) == [];
    AllElementsCons(path, tail);
    assert [path] + tail == KeyTail(path, index, indexed);
  }

  /** Join of a one-element relative directory, a site directory and more
      arguments without "..": the names joined by the separator. */
  lemma JoinBelowDir(dir: string, top: string, hostDir: string, last: seq<string>)
    requires dir != "" && !Rooted(dir) && Elements(dir) == [top] && IsName(top) && IsName(hostDir)
    requires ".." !in AllElements(last)
    ensures Join([dir, hostDir] + last) == JoinWith([top, hostDir] + AllElements(last), Separator)
  {
    ElementsBelowDir(dir, top, hostDir, last);
    ResolveNames(top, hostDir, AllElements(last));
    JoinByElements([dir, hostDir] + last);
  }

  lemma ElementsBelowDir(dir: string, top: string, hostDir: string, last: seq<string>)
    requires Elements(dir) == [top] && IsName(hostDir)
    ensures AllElements([dir, hostDir] + last) == [top, hostDir] + AllElements(last)
  {
    assert [dir, hostDir] + last == [dir] + ([hostDir] + last);
    AllElementsCons(dir, [hostDir] + last);
    ElementsOfName(hostDir);
    AllElementsCons(hostDir, last);
  }

  lemma ResolveNames(top: string, hostDir: string, rest: seq<string>)
    requires IsName(top) && IsName(hostDir) && ".." !in rest
    ensures Resolve([], [top, hostDir] + rest, false) == [top, hostDir] + rest
  {
    ResolveNoDotDot([], [top, hostDir] + rest, false);
    assert [] + ([top, hostDir] + rest) == [top, hostDir] + rest;
  }

  /** A relative directory path with the single element `top`. */
  predicate SingleDir(dir: string, top: string)
  {
    dir != "" && !Rooted(dir) && Elements(dir) == [top] && IsName(top)
  }

  lemma KeyInLayout(dir: string, top: string, index: string, hostDir: string, path: string, isHtml: bool)
    requires SingleDir(dir, top) && IsName(index) && IsName(hostDir) && ".." !in Elements(path)
    ensures KeyIn(dir, index, hostDir, path, isHtml)
         == JoinWith([top, hostDir] + Elements(path) + (if isHtml && Ext(path) == "" then [index] else []), Separator)
  {
    if isHtml && Ext(path) == "" {
      IndexedLayout(dir, top, index, hostDir, path);
    } else {
      PlainLayout(dir, top, hostDir, path);
      assert [top, hostDir] + Elements(path) + [] == [top, hostDir] + Elements(path);
    }
  }

  lemma IndexedLayout(dir: string, top: string, index: string, hostDir: string, path: string)
    requires SingleDir(dir, top) && IsName(index) && IsName(hostDir) && ".." !in Elements(path)
    ensures Join([dir, hostDir, path, index]) == JoinWith([top, hostDir] + Elements(path) + [index], Separator)
  {
    var last := [path, index];
    AllElementsOfKeyTail(path, index, true);
    assert KeyTail(path, index, true) == last;
    JoinBelowDir(dir, top, hostDir, last);
    assert [dir, hostDir] + last == [dir, hostDir, path, index];
    assert [top, hostDir] + AllElements(last) == [top, hostDir] + Elements(path) + [index];
  }

  lemma PlainLayout(dir: string, top: string, hostDir: string, path: string)
    requires SingleDir(dir, top) && IsName(hostDir) && ".." !in Elements(path)
    ensures Join([dir, hostDir, path]) == JoinWith([top, hostDir] + Elements(path), Separator)
  {
    var last := [path];
    AllElementsCons(path, []);
    assert AllElements([]) == [];
    assert [path] + [] == last;
    assert Elements(path) + [] == Elements(path);
    JoinBelowDir(dir, top, hostDir, last);
    assert [dir, hostDir] + last == [dir, hostDir, path];
  }

  /** The cache directory and the index file, as paths the prover does not
      unfold. */
  lemma CacheNames() returns (dir: string, index: string)
    ensures dir == CacheDir && SingleDir(dir, "_cacheRaw")
    ensures index == IndexFile && IsName(index)
  {
    var top := "_cacheRaw";
    assert IsName(top);
    ElementsOfDotSlash(top);
    dir := "./" + top;
    index := IndexFile;
    assert IsName(index);
  }

  /** Without ".." in the request path, a cache key is its names joined by
      the separator: "_cacheRaw/<site dir>/<path names>[/index.html]". */
  lemma KeyLayout(hostDir: string, path: string, isHtml: bool)
    requires IsName(hostDir) && ".." !in Elements(path)
    ensures CacheKey(hostDir, path, isHtml) == JoinWith(KeyNames(hostDir, path, isHtml && Ext(path) == ""), Separator)
  {
    var dir, index := CacheNames();
    KeyInLayout(dir, "_cacheRaw", index, hostDir, path, isHtml);
  }

  lemma SiteRootIn(dir: string, top: string, hostDir: string)
    requires SingleDir(dir, top) && IsName(hostDir)
    ensures Join([dir, hostDir]) == top + "/" + hostDir
  {
    assert AllElements([]) == [];
    JoinBelowDir(dir, top, hostDir, []);
    assert [dir, hostDir] + [] == [dir, hostDir];
    assert [top, hostDir] + [] == [top] + [hostDir];
    JoinWithCons(top, [hostDir], Separator);
  }

  /** The directory the refresh endpoint clears for a site. */
  lemma SiteRoot(hostDir: string)
    requires IsName(hostDir)
    ensures Join([CacheDir, hostDir]) == "_cacheRaw" + "/" + hostDir
  {
    var dir, _ := CacheNames();
    SiteRootIn(dir, "_cacheRaw", hostDir);
  }

  /** Joined names lie below the join of their first two. */
  lemma JoinedUnder(top: string, hostDir: string, rest: seq<string>)
    ensures Under(JoinWith([top, hostDir] + rest, Separator), top + "/" + hostDir)
  {
    var names := [top, hostDir] + rest;
    assert names == [top] + ([hostDir] + rest);
    JoinWithCons(top, [hostDir] + rest, Separator);
    var dir := top + "/" + hostDir;
    if rest == [] {
      assert [hostDir] + rest == [hostDir];
    } else {
      JoinWithCons(hostDir, rest, Separator);
      var key := JoinWith(names, Separator);
      assert key == dir + "/" + JoinWith(rest, Separator);
      assert key[..|dir + "/"|] == dir + "/";
    }
  }

  lemma KeyInSiteDirIn(dir: string, top: string, index: string, hostDir: string, path: string, isHtml: bool)
    requires SingleDir(dir, top) && IsName(index) && IsName(hostDir) && ".." !in Elements(path)
    ensures Under(KeyIn(dir, index, hostDir, path, isHtml), Join([dir, hostDir]))
  {
    KeyInLayout(dir, top, index, hostDir, path, isHtml);
    SiteRootIn(dir, top, hostDir);
    var rest := Elements(path) + (if isHtml && Ext(path) == "" then [index] else []);
    assert [top, hostDir] + Elements(path) + (if isHtml && Ext(path) == "" then [index] else [])
        == [top, hostDir] + rest;
    JoinedUnder(top, hostDir, rest);
  }

  /** Every cache key of a site lies at or below that site's directory (the
      one the refresh endpoint clears), as long as the request path has no
      ".." element. */
  lemma KeyInSiteDir(hostDir: string, path: string, isHtml: bool)
    requires IsName(hostDir) && ".." !in Elements(path)
    ensures Under(CacheKey(hostDir, path, isHtml), Join([CacheDir, hostDir]))
  {
    var dir, index := CacheNames();
    KeyInSiteDirIn(dir, "_cacheRaw", index, hostDir, path, isHtml);
  }

  lemma JoinWithThree(a: string, b: string, c: string)
    ensures JoinWith([a, b, c], Separator) == a + "/" + b + "/" + c
  {
    JoinWithCons(a, [b, c], Separator);
    JoinWithCons(b, [c], Separator);
    assert [a] + [b, c] == [a, b, c];
    assert [b] + [c] == [b, c];
  }

  lemma RootIndexIn(dir: string, top: string, index: string, hostDir: string)
    requires SingleDir(dir, top) && IsName(index) && IsName(hostDir)
    ensures KeyIn(dir, index, hostDir, "/", true) == top + "/" + hostDir + "/" + index
  {
    ElementsOfRoot();
    KeyInLayout(dir, top, index, hostDir, "/", true);
    assert [top, hostDir] + Elements("/") + [index] == [top, hostDir, index];
    JoinWithThree(top, hostDir, index);
  }

  lemma RootRuleIn(dir: string, top: string, index: string, hostDir: string)
    requires SingleDir(dir, top) && IsName(index) && IsName(hostDir)
    ensures Join([dir, hostDir, index]) == top + "/" + hostDir + "/" + index
  {
    ElementsOfName(index);
    AllElementsCons(index, []);
    assert AllElements([]) == [];
    assert [index] + [] == [index];
    JoinBelowDir(dir, top, hostDir, [index]);
    assert [dir, hostDir] + [index] == [dir, hostDir, index];
    assert [top, hostDir] + [index] == [top, hostDir, index];
    JoinWithThree(top, hostDir, index);
  }

  lemma RootPlainIn(dir: string, top: string, index: string, hostDir: string)
    requires SingleDir(dir, top) && IsName(index) && IsName(hostDir)
    ensures KeyIn(dir, index, hostDir, "/", false) == top + "/" + hostDir
  {
    ElementsOfRoot();
    KeyInLayout(dir, top, index, hostDir, "/", false);
    assert [top, hostDir] + Elements("/") + [] == [top] + [hostDir];
    JoinWithCons(top, [hostDir], Separator);
  }

  /** For the root path both reassignments of the lookup name the same
      file, "_cacheRaw/<site dir>/index.html"; a GET of "/" that does not
      accept HTML uses the site directory itself as its key. */
  lemma RootKeys(hostDir: string)
    requires IsName(hostDir)
    ensures CacheKey(hostDir, "/", true) == "_cacheRaw" + "/" + hostDir + "/" + IndexFile
    ensures Join([CacheDir, hostDir, IndexFile]) == CacheKey(hostDir, "/", true)
    ensures CacheKey(hostDir, "/", false) == Join([CacheDir, hostDir]) == "_cacheRaw" + "/" + hostDir
  {
    var dir, index := CacheNames();
    RootIndexIn(dir, "_cacheRaw", index, hostDir);
    RootRuleIn(dir, "_cacheRaw", index, hostDir);
    RootPlainIn(dir, "_cacheRaw", index, hostDir);
    SiteRootIn(dir, "_cacheRaw", hostDir);
  }

  /** The content types shouldCache keeps, by substring. */
  const CacheableTypes: seq<string> := [
    "text/html", "text/css", "application/javascript", "application/octet-stream",
    "image/png", "image/svg+xml", "video/mp4"]

  /** shouldCache, on the response's Content-Type and the path of the
      request sent upstream. */
  function ShouldCache(contentType: string, path: string): bool
  {
    if Contains(contentType, "text/html")
      || Contains(contentType, "text/css")
      || Contains(contentType, "application/javascript")
      || Contains(contentType, "application/octet-stream")
      || Contains(contentType, "image/png")
      || Contains(contentType, "image/svg+xml")
      || Contains(contentType, "video/mp4")
    then true
    else Ext(path) != ""
  }

  /** A response is kept exactly when its Content-Type contains one of the
      kept types, or the upstream path has an extension: a '.' in its last
      element. */
  lemma ShouldCacheMeaning(contentType: string, path: string)
    ensures ShouldCache(contentType, path) <==>
      (exists i :: 0 <= i < |CacheableTypes| && Contains(contentType, CacheableTypes[i]))
      || exists k :: 0 <= k < |path| && path[k] == '.' && Separator !in path[k + 1..]
  {
    var ts := CacheableTypes;
    assert ts[0] == "text/html" && ts[1] == "text/css" && ts[2] == "application/javascript";
    assert ts[3] == "application/octet-stream" && ts[4] == "image/png";
    assert ts[5] == "image/svg+xml" && ts[6] == "video/mp4";
    var byType := exists i :: 0 <= i < |ts| && Contains(contentType, ts[i]);
    if byType {
      var i :| 0 <= i < |ts| && Contains(contentType, ts[i]);
      assert i in {0, 1, 2, 3, 4, 5, 6};
    }
  }

  /** checkMainSiteHostMatch: the second '\'-separated segment is the host. */
  function CheckMainSiteHostMatch(input: string, host: string): bool
  {
    var parts := Split(input, '\\');
    if |parts| < 2 then false else parts[1] == host
  }

  /** Without a backslash there is no second segment. */
  lemma NoBackslashNoMatch(input: string, host: string)
    requires '\\' !in input
    ensures !CheckMainSiteHostMatch(input, host)
  {
    SplitNoSep(input, '\\');
  }

  /** A Windows-style key whose second segment is the host matches. */
  lemma BackslashHostMatches(first: string, host: string, rest: string)
    requires '\\' !in first && '\\' !in host
    ensures CheckMainSiteHostMatch(first + "\\" + host, host)
    ensures CheckMainSiteHostMatch(first + "\\" + host + "\\" + rest, host)
  {
    SplitNoSep(first, '\\');
    SplitNoSep(host, '\\');
    assert first + "\\" + host == first + ['\\'] + host;
    SplitConcat(first, host, '\\');
    assert first + "\\" + host + "\\" + rest == first + ['\\'] + (host + ['\\'] + rest);
    SplitConcat(first, host + ['\\'] + rest, '\\');
    SplitConcat(host, rest, '\\');
  }

  /** The file the ModifyResponse hook writes: on a host match, the first
      occurrence of the host in the key is replaced by "main.site". */
  function CacheWriteTarget(cachePath: string, host: string): string
  {
    if CheckMainSiteHostMatch(cachePath, host) then ReplaceFirst(cachePath, host, MainSiteDir) else cachePath
  }

  /** With '/' paths the host check never fires: a cache key built from a
      site directory and request path without backslashes is written where
      the lookup reads it. */
  lemma WriteTargetIsKey(hostDir: string, path: string, isHtml: bool, host: string)
    requires '\\' !in hostDir && '\\' !in path
    ensures !CheckMainSiteHostMatch(CacheKey(hostDir, path, isHtml), host)
    ensures CacheWriteTarget(CacheKey(hostDir, path, isHtml), host) == CacheKey(hostDir, path, isHtml)
  {
    assert '\\' !in CacheDir && '\\' !in IndexFile;
    var four := [CacheDir, hostDir, path, IndexFile];
    var three := [CacheDir, hostDir, path];
    assert Avoids(four, '\\') by {
      forall i | 0 <= i < |four| ensures '\\' !in four[i] {
      }
    }
    assert Avoids(three, '\\') by {
      forall i | 0 <= i < |three| ensures '\\' !in three[i] {
      }
    }
    JoinAvoids(four, '\\');
    JoinAvoids(three, '\\');
    NoBackslashNoMatch(CacheKey(hostDir, path, isHtml), host);
  }
}
