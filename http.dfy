/** The parts of Go's net/http the proxy mutates in place: header maps
    (Get, Set, Del, Add), response writers (the client connection and the
    httptest recorder), requests and upstream responses. Header keys are
    taken to be in canonical form already (every key the proxy names is). */
module Http {
  import opened Text

  type Fields = map<string, seq<string>>

  /** The values stored under `key`, none when it is absent. */
  function Values(f: Fields, key: string): seq<string>
  {
    if key in f then f[key] else []
  }

  /** Header.Get: the first value, or "" when there is none. */
  function FieldGet(f: Fields, key: string): string
  {
    if key in f && |f[key]| > 0 then f[key][0] else ""
  }

  /** The map after Add(key, v) for every v of `vs`, in order. */
  function AddAll(f: Fields, key: string, vs: seq<string>): Fields
  {
    if vs == [] then f else f[key := Values(f, key) + vs]
  }

  /** Only the keys in `keys`. */
  function Restrict(f: Fields, keys: set<string>): Fields
  {
    map k | k in f && k in keys :: f[k]
  }

  /** The header map `dst` after every value of `src` was added to it, key by
      key: a key of `src` whose value list is empty adds nothing. */
  function Merge(dst: Fields, src: Fields): Fields
  {
    map k | k in dst.Keys + src.Keys && (k in dst || src[k] != []) :: Values(dst, k) + Values(src, k)
  }

  /** Merging into an empty map yields the source without its empty keys;
      merging keeps every value already in `dst` ahead of the new ones. */
  lemma MergeFacts(dst: Fields, src: Fields)
    ensures forall k :: k in Merge(dst, src) <==> k in dst || (k in src && src[k] != [])
    ensures forall k :: k in dst ==> Merge(dst, src)[k][..|dst[k]|] == dst[k]
  {
  }

  lemma MergeNothing(dst: Fields)
    ensures Merge(dst, map[]) == dst
  {
    var m := Merge(dst, map[]);
    assert m.Keys == dst.Keys;
    forall k | k in m ensures m[k] == dst[k] {
      assert Values(map[], k) == [];
    }
  }

  lemma AddAllSnoc(f: Fields, key: string, vs: seq<string>, v: string)
    ensures AddAll(f, key, vs + [v]) == var g := AddAll(f, key, vs); g[key := Values(g, key) + [v]]
  {
    var g := AddAll(f, key, vs);
    assert Values(g, key) + [v] == Values(f, key) + (vs + [v]);
  }

  /** One key of a merge. */
  lemma MergeAt(dst: Fields, src: Fields, j: string)
    ensures j in Merge(dst, src) <==> j in dst || (j in src && src[j] != [])
    ensures j in Merge(dst, src) ==> Merge(dst, src)[j] == Values(dst, j) + Values(src, j)
  {
  }

  /** Adding the values of one more key of `src` continues the merge. */
  lemma MergeStep(dst: Fields, src: Fields, done: set<string>, k: string)
    requires k in src && k !in done
    ensures AddAll(Merge(dst, Restrict(src, done)), k, src[k]) == Merge(dst, Restrict(src, done + {k}))
  {
    var added := AddAll(Merge(dst, Restrict(src, done)), k, src[k]);
    var after := Merge(dst, Restrict(src, done + {k}));
    forall j ensures (j in added <==> j in after) && (j in added ==> added[j] == after[j]) {
      MergeStepAt(dst, src, done, k, j);
    }
  }

  /** MergeStep at one key `j`. */
  lemma MergeStepAt(dst: Fields, src: Fields, done: set<string>, k: string, j: string)
    requires k in src && k !in done
    ensures var added := AddAll(Merge(dst, Restrict(src, done)), k, src[k]);
      var after := Merge(dst, Restrict(src, done + {k}));
      (j in added <==> j in after) && (j in added ==> added[j] == after[j])
  {
    var r1 := Restrict(src, done);
    var r2 := Restrict(src, done + {k});
    MergeAt(dst, r1, j);
    MergeAt(dst, r2, j);
    if j == k {
      assert Values(r2, k) == src[k] && Values(r1, k) == [];
    } else {
      assert Values(r2, j) == Values(r1, j);
      assert j in r2 <==> j in r1;
    }
  }

  class Header {
    var fields: Fields

    constructor ()
      ensures fields == map[]
    {
      fields := map[];
    }

    function Get(key: string): string
      reads this
    {
      FieldGet(fields, key)
    }

    method Set(key: string, value: string)
      modifies this
      ensures fields == old(fields)[key := [value]]
    {
      fields := fields[key := [value]];
    }

    method Del(key: string)
      modifies this
      ensures fields == old(fields) - {key}
    {
      fields := fields - {key};
    }

    method Add(key: string, value: string)
      modifies this
      ensures fields == old(fields)[key := Values(old(fields), key) + [value]]
    {
      fields := fields[key := Values(fields, key) + [value]];
    }

    /** Sets every key of `extra` at once (what an opaque library writer such
        as http.ServeFile does to the header map). */
    method SetFrom(extra: Fields)
      modifies this
      ensures fields == old(fields) + extra
    {
      fields := fields + extra;
    }
  }

  /** for k, vv := range src { for _, v := range vv { dst.Add(k, v) } }:
      this loop copies the recorder's headers to the client at
      cmd/main.go:487-491, and httputil.ReverseProxy uses the same loop to copy
      the upstream headers into the recorder. Go visits the keys in no fixed
      order; the result does not depend on it. */
  method CopyHeader(dst: Header, src: Header)
    requires dst != src
    modifies dst
    ensures dst.fields == Merge(old(dst.fields), src.fields)
  {
    var remaining := src.fields.Keys;
    ghost var done: set<string> := {};
    assert Restrict(src.fields, done) == map[];
    MergeNothing(dst.fields);
    while remaining != {}
      invariant remaining + done == src.fields.Keys && remaining !! done
      invariant dst.fields == Merge(old(dst.fields), Restrict(src.fields, done))
      decreases remaining
    {
      var k :| k in remaining;
      var vv := src.fields[k];
      ghost var start := dst.fields;
      for i := 0 to |vv|
        invariant dst.fields == AddAll(start, k, vv[..i])
      {
        assert vv[..i + 1] == vv[..i] + [vv[i]];
        AddAllSnoc(start, k, vv[..i], vv[i]);
        dst.Add(k, vv[i]);
      }
      assert vv[..|vv|] == vv;
      MergeStep(old(dst.fields), src.fields, done, k);
      remaining := remaining - {k};
      done := done + {k};
    }
    assert Restrict(src.fields, done) == src.fields;
  }

  /** What a response writer holds: its live header map, whether the status
      line was written, the status code, the header snapshot taken when it
      was written (what the client receives) and the body so far. */
  datatype WriterState = WriterState(fields: Fields, wroteHeader: bool, code: int, sent: Fields, body: seq<byte>)

  /** WriteHeader: only the first call has an effect; it fixes the status
      and the headers the client sees. */
  function WriteHeaderSpec(s: WriterState, code: int): WriterState
  {
    if s.wroteHeader then s else s.(wroteHeader := true, code := code, sent := s.fields)
  }

  /** Write: an implicit WriteHeader(200), then the bytes are appended. */
  function WriteSpec(s: WriterState, data: seq<byte>): WriterState
  {
    var t := WriteHeaderSpec(s, 200);
    t.(body := t.body + data)
  }

  function ErrorFields(f: Fields): Fields
  {
    var cleared := f - {"Content-Length"};
    cleared["Content-Type" := ["text/plain; charset=utf-8"]]["X-Content-Type-Options" := ["nosniff"]]
  }

  /** http.Error(w, msg, code). */
  function ErrorSpec(s: WriterState, msg: string, code: int): WriterState
  {
    WriteSpec(WriteHeaderSpec(s.(fields := ErrorFields(s.fields)), code), Utf8(msg + "\n"))
  }

  /** bodyAllowedForStatus of net/http: 1xx, 204 and 304 responses carry
      no body. */
  predicate BodyAllowed(code: int)
  {
    !(100 <= code < 200) && code != 204 && code != 304
  }

  /** The body Go's server puts on the connection for what a handler wrote
      to the client writer: none for a status without a body or for a HEAD
      request, whatever the handler wrote. */
  function DeliveredBody(s: WriterState, isHead: bool): (b: seq<byte>)
    ensures b == [] || b == s.body
    ensures isHead || !BodyAllowed(s.code) ==> b == []
    ensures !isHead && BodyAllowed(s.code) ==> b == s.body
  {
    if BodyAllowed(s.code) && !isHead then s.body else []
  }

  /** A writer nothing was done to yet. */
  const FreshWriter := WriterState(map[], false, 200, map[], [])

  /** A response writer: the client connection, or an httptest recorder
      (whose status is 200 until written). */
  class ResponseWriter {
    const header: Header
    var wroteHeader: bool
    var code: int
    var sent: Fields
    var body: seq<byte>

    function State(): WriterState
      reads this, header
    {
      WriterState(header.fields, wroteHeader, code, sent, body)
    }

    constructor ()
      ensures fresh(header)
      ensures State() == FreshWriter
    {
      header := new Header();
      wroteHeader, code, sent, body := false, 200, map[], [];
    }

    method WriteHeader(statusCode: int)
      modifies this
      ensures State() == WriteHeaderSpec(old(State()), statusCode)
    {
      if !wroteHeader {
        wroteHeader, code, sent := true, statusCode, header.fields;
      }
    }

    method Write(data: seq<byte>)
      modifies this
      ensures State() == WriteSpec(old(State()), data)
    {
      WriteHeader(200);
      body := body + data;
    }
  }

  /** http.Error: clears Content-Length, marks the body as plain text, writes
      the status and the message with a newline. */
  method Error(w: ResponseWriter, msg: string, code: int)
    modifies w, w.header
    ensures w.State() == ErrorSpec(old(w.State()), msg, code)
  {
    w.header.Del("Content-Length");
    w.header.Set("Content-Type", "text/plain; charset=utf-8");
    w.header.Set("X-Content-Type-Options", "nosniff");
    w.WriteHeader(code);
    w.Write(Utf8(msg + "\n"));
  }

  datatype Url = Url(scheme: string, host: string, path: string)

  datatype RequestValue = RequestValue(verb: string, host: string, url: Url, fields: Fields)

  /** An inbound request. As Go's server delivers it, the Host line is in
      `host` and no longer among the header fields. */
  class Request {
    const verb: string
    var host: string
    var url: Url
    const header: Header

    function Value(): RequestValue
      reads this, header
    {
      RequestValue(verb, host, url, header.fields)
    }

    constructor (v: RequestValue)
      ensures fresh(header) && Value() == v
    {
      verb, host, url := v.verb, v.host, v.url;
      header := new Header();
      new;
      header.fields := v.fields;
    }
  }

  /** The outcome of one exchange with the origin: status, headers, body. */
  datatype UpstreamMsg = UpstreamMsg(status: int, fields: Fields, body: seq<byte>)

  /** The origin's response as the ModifyResponse hook sees it: its body and
      headers may be replaced. `requestPath` is the path of the request that
      was sent upstream (response.Request.URL.Path). */
  class Response {
    const statusCode: int
    const header: Header
    var body: seq<byte>
    const requestPath: string

    constructor (msg: UpstreamMsg, path: string)
      ensures fresh(header)
      ensures statusCode == msg.status && header.fields == msg.fields && body == msg.body
      ensures requestPath == path
    {
      statusCode, body, requestPath := msg.status, msg.body, path;
      header := new Header();
      new;
      header.fields := msg.fields;
    }
  }
}
