/** Virtual-host routing: the tables the startup loops build from the
    configuration (cmd/main.go:126-139), the host lookup of mainProxyHandler
    (cmd/main.go:240-259) and the allow-list check that guards the
    refresh-cache endpoint (cmd/main.go:698-705). */
module Routing {
  import opened Wrappers
  import opened Text
  import opened Http

  /** config/config.json, as decoded into the Config struct. */
  datatype Config = Config(
    mainTargetUrl: string,
    mainEntryList: seq<string>,
    resTargetUrl: string,
    resEntryList: seq<string>,
    apiEndpoint: seq<string>,
    allowedOrigins: seq<string>,
    port: int)

  /** The three package-level maps: allowedOrigins, targetsMap and
      targetsTypeMap. */
  datatype RouteTable = RouteTable(
    allowedOrigins: map<string, bool>,
    targets: map<string, Url>,
    targetTypes: map<string, string>)

  const MainSite := "main"
  const ResSite := "res"

  /** Stands for an origin URL that was never parsed because its entry list
      is empty. */
  const UnusedUrl := Url("", "", "")

  /** What the startup loops promise about the tables: the origins are the
      configured ones, every entry host is routed, a host listed for both
      sites belongs to "res" (its loop runs last), a main-only host to
      "main", and the two host maps share their keys. */
  ghost predicate LoadedFrom(t: RouteTable, c: Config, mainUrl: Url, resUrl: Url)
  {
    && (forall o :: o in t.allowedOrigins <==> o in c.allowedOrigins)
    && (forall o :: o in t.allowedOrigins ==> t.allowedOrigins[o])
    && (forall h :: h in t.targets <==> h in c.mainEntryList || h in c.resEntryList)
    && t.targetTypes.Keys == t.targets.Keys
    && (forall h :: h in c.resEntryList ==> t.targets[h] == resUrl && t.targetTypes[h] == ResSite)
    && (forall h :: h in c.mainEntryList && h !in c.resEntryList ==>
          t.targets[h] == mainUrl && t.targetTypes[h] == MainSite)
  }

  /** The startup loops of main(). mustParseURL runs once per entry and a
      parse failure is fatal (log.Fatalf), so a bad origin URL stops the
      process only when its entry list is non-empty. */
  method LoadRoutes(c: Config, parseUrl: string -> Option<Url>) returns (t: Option<RouteTable>)
    ensures t.None? <==>
      || (|c.mainEntryList| > 0 && parseUrl(c.mainTargetUrl).None?)
      || (|c.resEntryList| > 0 && parseUrl(c.resTargetUrl).None?)
    ensures t.Some? ==>
      LoadedFrom(t.value, c, parseUrl(c.mainTargetUrl).GetOr(UnusedUrl), parseUrl(c.resTargetUrl).GetOr(UnusedUrl))
  {
    var allowed: map<string, bool> := map[];
    for i := 0 to |c.allowedOrigins|
      invariant forall o :: o in allowed <==> o in c.allowedOrigins[..i]
      invariant forall o :: o in allowed ==> allowed[o]
    {
      allowed := allowed[c.allowedOrigins[i] := true];
    }
    assert c.allowedOrigins[..|c.allowedOrigins|] == c.allowedOrigins;
    var targets: map<string, Url> := map[];
    var types: map<string, string> := map[];
    ghost var mainUrl := parseUrl(c.mainTargetUrl).GetOr(UnusedUrl);
    ghost var resUrl := parseUrl(c.resTargetUrl).GetOr(UnusedUrl);
    for i := 0 to |c.mainEntryList|
      invariant i > 0 ==> parseUrl(c.mainTargetUrl).Some?
      invariant forall h :: h in targets <==> h in c.mainEntryList[..i]
      invariant types.Keys == targets.Keys
      invariant forall h :: h in targets ==> targets[h] == mainUrl && types[h] == MainSite
    {
      var u := parseUrl(c.mainTargetUrl);
      if u.None? {
        return None;
      }
      targets := targets[c.mainEntryList[i] := u.value];
      types := types[c.mainEntryList[i] := MainSite];
    }
    assert c.mainEntryList[..|c.mainEntryList|] == c.mainEntryList;
    for i := 0 to |c.resEntryList|
      invariant i > 0 ==> parseUrl(c.resTargetUrl).Some?
      invariant forall h :: h in targets <==> h in c.mainEntryList || h in c.resEntryList[..i]
      invariant types.Keys == targets.Keys
      invariant forall h :: h in c.resEntryList[..i] ==> targets[h] == resUrl && types[h] == ResSite
      invariant forall h :: h in c.mainEntryList && h !in c.resEntryList[..i] ==>
        targets[h] == mainUrl && types[h] == MainSite
    {
      var u := parseUrl(c.resTargetUrl);
      if u.None? {
        return None;
      }
      assert c.resEntryList[..i + 1] == c.resEntryList[..i] + [c.resEntryList[i]];
      targets := targets[c.resEntryList[i] := u.value];
      types := types[c.resEntryList[i] := ResSite];
    }
    assert c.resEntryList[..|c.resEntryList|] == c.resEntryList;
    t := Some(RouteTable(allowed, targets, types));
  }

  /** strings.Split(r.Host, ":")[0]: the Host line up to its first ':'. */
  function StripPort(hostHeader: string): string
  {
    Split(hostHeader, ':')[0]
  }

  /** A host name without a colon is unchanged with or without a port. */
  lemma {:induction false} StripPortOfName(name: string, port: string)
    requires ':' !in name
    ensures StripPort(name) == name
    ensures StripPort(name + ":" + port) == name
  {
    SplitNoSep(name, ':');
    SplitConcat(name, port, ':');
    assert name + ":" + port == name + [':'] + port;
  }

  /** The split stops at the first colon, so a bracketed IPv6 literal loses
      everything after its opening bracket. */
  lemma StripPortOfIpv6Literal()
    ensures StripPort("[::1]:8080") == "["
  {
    SplitConcat("[", ":1]:8080", ':');
    SplitNoSep("[", ':');
    assert "[::1]:8080" == "[" + [':'] + ":1]:8080";
  }

  /** targetsMap[host] and targetsTypeMap[host]: the origin and site class
      of a request, or None (a 403). */
  function Route(t: RouteTable, hostHeader: string): Option<(Url, string)>
  {
    var host := StripPort(hostHeader);
    if host in t.targets && host in t.targetTypes then Some((t.targets[host], t.targetTypes[host])) else None
  }

  /** Routing after a successful load: a res entry goes to the res origin
      even when it is also a main entry, a main-only entry goes to the main
      origin, with or without a port on the Host line; any other host is
      refused. */
  lemma {:induction false} RouteOfLoadedTable(t: RouteTable, c: Config, mainUrl: Url, resUrl: Url, name: string, port: string)
    requires LoadedFrom(t, c, mainUrl, resUrl)
    requires ':' !in name
    ensures name in c.resEntryList ==>
      Route(t, name) == Some((resUrl, ResSite)) && Route(t, name + ":" + port) == Some((resUrl, ResSite))
    ensures name in c.mainEntryList && name !in c.resEntryList ==>
      Route(t, name) == Some((mainUrl, MainSite)) && Route(t, name + ":" + port) == Some((mainUrl, MainSite))
    ensures name !in c.mainEntryList && name !in c.resEntryList ==>
      Route(t, name) == None && Route(t, name + ":" + port) == None
  {
    StripPortOfName(name, port);
  }

  /** The second 403 of mainProxyHandler cannot happen: every host found in
      targetsMap is also in targetsTypeMap. */
  lemma TypeLookupNeverFails(t: RouteTable, c: Config, mainUrl: Url, resUrl: Url, hostHeader: string)
    requires LoadedFrom(t, c, mainUrl, resUrl)
    ensures StripPort(hostHeader) in t.targets ==> StripPort(hostHeader) in t.targetTypes
    ensures Route(t, hostHeader).Some? <==> StripPort(hostHeader) in t.targets
  {
  }

  /** isDomainAllowedCallApi: an exact match of the whole Host line (port
      included) against api_endpoint. */
  method IsDomainAllowedCallApi(host: string, c: Config) returns (allowed: bool)
    ensures allowed <==> host in c.apiEndpoint
  {
    for i := 0 to |c.apiEndpoint|
      invariant host !in c.apiEndpoint[..i]
    {
      if host == c.apiEndpoint[i] {
        return true;
      }
      assert c.apiEndpoint[..i + 1] == c.apiEndpoint[..i] + [c.apiEndpoint[i]];
    }
    assert c.apiEndpoint[..|c.apiEndpoint|] == c.apiEndpoint;
    return false;
  }

  /** allowedOrigins[origin]: a missing key reads as false. */
  function OriginAllowed(t: RouteTable, origin: string): bool
  {
    origin in t.allowedOrigins && t.allowedOrigins[origin]
  }

  /** After loading, an origin is allowed exactly when it is configured. */
  lemma OriginAllowedIffConfigured(t: RouteTable, c: Config, mainUrl: Url, resUrl: Url, origin: string)
    requires LoadedFrom(t, c, mainUrl, resUrl)
    ensures OriginAllowed(t, origin) <==> origin in c.allowedOrigins
  {
  }
}
