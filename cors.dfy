/** The cross-origin policy the proxy applies (cmd/main.go:461-482,
    577-591, 593-606, 625-645): the requester's origin is taken from the
    Origin header or else from the Referer, only origins on the allow-list
    receive Access-Control-Allow-Origin, and every response allows all
    methods and headers. */
module Cors {
  import opened Wrappers
  import opened Http

  const AllowOrigin := "Access-Control-Allow-Origin"
  const AllowMethods := "Access-Control-Allow-Methods"
  const AllowHeaders := "Access-Control-Allow-Headers"
  const FrameOptions := "X-Frame-Options"

  /** The header keys the policy decides. */
  const PolicyKeys: set<string> := {FrameOptions, AllowOrigin, AllowMethods, AllowHeaders}

  /** getOriginFromReferer: scheme "://" host of the parsed Referer, or ""
      when it is empty or does not parse. */
  function OriginFromReferer(referer: string, parseUrl: string -> Option<Url>): string
  {
    if referer == "" then ""
    else match parseUrl(referer)
      case None => ""
      case Some(u) => u.scheme + "://" + u.host
  }

  /** The origin block that every handler repeats: the Origin header, or
      else the origin of a non-empty Referer. */
  function RequesterOrigin(fields: Fields, parseUrl: string -> Option<Url>): string
  {
    var origin := FieldGet(fields, "Origin");
    if origin != "" then origin
    else
      var referer := FieldGet(fields, "Referer");
      if referer != "" then OriginFromReferer(referer, parseUrl) else origin
  }

  /** The Origin header wins; without it the Referer decides, and a request
      with neither has the empty origin. */
  lemma RequesterOriginChoice(fields: Fields, parseUrl: string -> Option<Url>)
    ensures FieldGet(fields, "Origin") != "" ==> RequesterOrigin(fields, parseUrl) == FieldGet(fields, "Origin")
    ensures FieldGet(fields, "Origin") == "" && FieldGet(fields, "Referer") == "" ==> RequesterOrigin(fields, parseUrl) == ""
    ensures FieldGet(fields, "Origin") == "" && FieldGet(fields, "Referer") != "" ==>
      match parseUrl(FieldGet(fields, "Referer"))
      case None => RequesterOrigin(fields, parseUrl) == ""
      case Some(u) => RequesterOrigin(fields, parseUrl) == u.scheme + "://" + u.host
  {
  }

  /** The proxy and static-file policy: inherited frame and CORS headers are
      removed, then the three CORS headers are set. */
  function CorsPolicy(f: Fields, allowed: bool): Fields
  {
    var cleared := f - PolicyKeys;
    var withOrigin := if allowed then cleared[AllowOrigin := ["*"]] else cleared;
    withOrigin[AllowMethods := ["*"]][AllowHeaders := ["*"]]
  }

  /** serveFileWithCORS: the same headers are set, nothing is removed. */
  function ServeFileCors(f: Fields, allowed: bool): Fields
  {
    var withOrigin := if allowed then f[AllowOrigin := ["*"]] else f;
    withOrigin[AllowMethods := ["*"]][AllowHeaders := ["*"]]
  }

  /** After the policy, Access-Control-Allow-Origin is "*" exactly for an
      allowed origin, methods and headers are "*", X-Frame-Options is gone,
      and every other field is as it was. */
  lemma CorsPolicyFacts(f: Fields, allowed: bool)
    ensures AllowOrigin in CorsPolicy(f, allowed) <==> allowed
    ensures allowed ==> CorsPolicy(f, allowed)[AllowOrigin] == ["*"]
    ensures CorsPolicy(f, allowed)[AllowMethods] == ["*"] && CorsPolicy(f, allowed)[AllowHeaders] == ["*"]
    ensures FrameOptions !in CorsPolicy(f, allowed)
    ensures forall k :: k !in PolicyKeys ==> (k in CorsPolicy(f, allowed) <==> k in f)
    ensures forall k :: k !in PolicyKeys && k in f ==> CorsPolicy(f, allowed)[k] == f[k]
  {
  }

  /** Applying the policy twice changes nothing more. */
  lemma CorsPolicyIdempotent(f: Fields, allowed: bool)
    ensures CorsPolicy(CorsPolicy(f, allowed), allowed) == CorsPolicy(f, allowed)
  {
    var once := CorsPolicy(f, allowed);
    var twice := CorsPolicy(once, allowed);
    assert twice.Keys == once.Keys;
  }

  /** On a header that holds none of the policy's keys (the client writer
      of a cache hit) the two variants agree; on one that holds an
      inherited Access-Control-Allow-Origin they differ for a refused
      origin, which keeps it under serveFileWithCORS. */
  lemma ServeFileCorsAgrees(f: Fields, allowed: bool)
    ensures f.Keys !! PolicyKeys ==> ServeFileCors(f, allowed) == CorsPolicy(f, allowed)
    ensures AllowOrigin in f && !allowed ==> AllowOrigin in ServeFileCors(f, allowed) && AllowOrigin !in CorsPolicy(f, allowed)
  {
    if f.Keys !! PolicyKeys {
      assert f - PolicyKeys == f;
    }
  }

  /** Deleting the four keys one by one removes the policy keys. */
  lemma RemovePolicyKeys(f: Fields)
    ensures f - {FrameOptions} - {AllowOrigin} - {AllowMethods} - {AllowHeaders} == f - PolicyKeys
  {
    var g := f - {FrameOptions} - {AllowOrigin} - {AllowMethods} - {AllowHeaders};
    assert g.Keys == f.Keys - PolicyKeys;
  }

  /** The Del and Set calls of mainProxyHandler (cmd/main.go:461-482) and of
      serveFileHandler (cmd/main.go:634-645), in their order. */
  method ApplyCorsPolicy(h: Header, allowed: bool)
    modifies h
    ensures h.fields == CorsPolicy(old(h.fields), allowed)
  {
    h.Del(FrameOptions);
    h.Del(AllowOrigin);
    h.Del(AllowMethods);
    h.Del(AllowHeaders);
    RemovePolicyKeys(old(h.fields));
    if allowed {
      h.Set(AllowOrigin, "*");
    }
    h.Set(AllowMethods, "*");
    h.Set(AllowHeaders, "*");
  }

  /** serveFileWithCORS on the client writer's header. */
  method ServeFileWithCors(h: Header, allowed: bool)
    modifies h
    ensures h.fields == ServeFileCors(old(h.fields), allowed)
  {
    if allowed {
      h.Set(AllowOrigin, "*");
    }
    h.Set(AllowMethods, "*");
    h.Set(AllowHeaders, "*");
  }
}
