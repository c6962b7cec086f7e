/** The patch applied to the origin's worker script on its way into the
    cache (cmd/main.go:391-397): two guards on a CORSWorkaround option are
    each replaced, at their first occurrence, by `true`. */
module Transform {
  import opened Text

  const WorkerScriptPath := "/dist/workerHost.min.js"
  /** The guard the first strings.Replace removes. */
  const CorsGuard := "(null===(r=null==t?void 0:t.CORSWorkaround)||void 0===r||r)"
  /** The guard the second strings.Replace removes. */
  const StringCorsGuard := "\"string\"==typeof e&&o(e)&&(null===(i=null==t?void 0:t.CORSWorkaround)||void 0===i||i)"
  const Replacement := "true"

  /** The body stored for the request path `path`. */
  function RewriteWorkerScript(path: string, body: seq<byte>): (r: seq<byte>)
    ensures path != WorkerScriptPath ==> r == body
  {
    if path == WorkerScriptPath then PatchGuards(body, Bytes(CorsGuard), Bytes(StringCorsGuard), Bytes(Replacement))
    else body
  }

  /** The two strings.Replace(..., 1) calls in order. */
  function PatchGuards(body: seq<byte>, first: seq<byte>, second: seq<byte>, rep: seq<byte>): seq<byte>
  {
    ReplaceFirst(ReplaceFirst(body, first, rep), second, rep)
  }

  /** A body with neither guard comes back byte for byte. */
  lemma RewriteWithoutGuards(path: string, body: seq<byte>)
    requires !Contains(body, Bytes(CorsGuard)) && !Contains(body, Bytes(StringCorsGuard))
    ensures RewriteWorkerScript(path, body) == body
  {
  }

  /** Each pass keeps every byte around the first occurrence of its guard:
      the worker script is the body with the first CorsGuard cut out and
      "true" put in its place, then the same done for StringCorsGuard. */
  lemma RewriteKeepsOtherBytes(body: seq<byte>)
    ensures var g, g2, t := Bytes(CorsGuard), Bytes(StringCorsGuard), Bytes(Replacement);
      var once := if Contains(body, g) then body[..Index(body, g)] + t + body[Index(body, g) + |g|..] else body;
      RewriteWorkerScript(WorkerScriptPath, body)
        == if Contains(once, g2) then once[..Index(once, g2)] + t + once[Index(once, g2) + |g2|..] else once
  {
    var g, g2, t := Bytes(CorsGuard), Bytes(StringCorsGuard), Bytes(Replacement);
    SpliceIsReplace(body, g, t);
    SpliceIsReplace(ReplaceFirst(body, g, t), g2, t);
  }

  /** ReplaceFirst as a splice at the first occurrence. */
  lemma SpliceIsReplace<T>(s: seq<T>, pat: seq<T>, rep: seq<T>)
    ensures ReplaceFirst(s, pat, rep)
         == if Contains(s, pat) then s[..Index(s, pat)] + rep + s[Index(s, pat) + |pat|..] else s
  {
    if Contains(s, pat) {
      var k := Index(s, pat);
      var r := ReplaceFirst(s, pat, rep);
      assert r == r[..k] + r[k..k + |rep|] + r[k + |rep|..];
    }
  }

  /** A pattern longer than the text does not occur in it. */
  lemma LongerNotContained<T>(s: seq<T>, t: seq<T>)
    requires |t| > |s|
    ensures !Contains(s, t)
  {
  }

  /** A text that starts with the pattern has it replaced right there. */
  lemma ReplaceAtStart<T>(pat: seq<T>, rest: seq<T>, rep: seq<T>)
    ensures ReplaceFirst(pat + rest, pat, rep) == rep + rest
  {
    var s := pat + rest;
    assert s[..|pat|] == pat;
    assert OccursAt(s, pat, 0);
    var k := Index(s, pat);
    assert k == 0;
    assert s[k + |pat|..] == rest;
  }

  /** The pattern does not start inside a shorter prefix when its last
      element does not occur among the |pre| elements before it. */
  lemma ReplaceAfterShortPrefix<T>(pre: seq<T>, pat: seq<T>, rep: seq<T>)
    requires |pat| > |pre| && pat[|pat| - 1] !in pat[|pat| - 1 - |pre|..|pat| - 1]
    ensures ReplaceFirst(pre + pat, pat, rep) == pre + rep
  {
    var s := pre + pat;
    var last := |pat| - 1;
    assert s[|pre|..|pre| + |pat|] == pat;
    assert OccursAt(s, pat, |pre|);
    forall j | 0 <= j < |pre| ensures !OccursAt(s, pat, j) {
      var i := j + last - |pre|;
      assert s[j + last] == pat[i];
      assert pat[i] == pat[last - |pre|..last][j];
      assert s[j..j + |pat|][last] == s[j + last];
    }
    var k := Index(s, pat);
    assert k == |pre|;
    assert s[..k] == pre;
    assert s[k + |pat|..] == [];
  }

  lemma PatchTwice(g: seq<byte>, g2: seq<byte>, t: seq<byte>)
    requires |g| > |t| && g[|g| - 1] !in g[|g| - 1 - |t|..|g| - 1]
    requires |g2| > |t| + |g| && |g2| > |t| + |t|
    ensures PatchGuards(g + g, g, g2, t) == t + g
    ensures PatchGuards(t + g, g, g2, t) == t + t
  {
    ReplaceAtStart(g, g, t);
    LongerNotContained(t + g, g2);
    ReplaceAfterShortPrefix(t, g, t);
    LongerNotContained(t + t, g2);
  }

  /** The three byte strings, with the facts the proof needs about them. */
  lemma GuardBytes() returns (g: seq<byte>, g2: seq<byte>, t: seq<byte>)
    ensures g == Bytes(CorsGuard) && g2 == Bytes(StringCorsGuard) && t == Bytes(Replacement)
    ensures |g| == 59 && |g2| == 85 && |t| == 4
    ensures g[|g| - 1] !in g[|g| - 1 - |t|..|g| - 1]
  {
    g, g2, t := Bytes(CorsGuard), Bytes(StringCorsGuard), Bytes(Replacement);
    assert CorsGuard[54..59] == "r||r)";
    assert g[58] as int == 41;
    assert g[54] as int == 114 && g[55] as int == 124 && g[56] as int == 124 && g[57] as int == 114;
    assert g[54..58] == [g[54], g[55], g[56], g[57]];
  }

  /** Only the first occurrence of a guard is replaced, so the rewrite is
      not idempotent: a script carrying the first guard twice loses one
      copy per pass. */
  lemma RewriteFirstOccurrenceOnly()
    ensures RewriteWorkerScript(WorkerScriptPath, Bytes(CorsGuard) + Bytes(CorsGuard))
         == Bytes(Replacement) + Bytes(CorsGuard)
    ensures RewriteWorkerScript(WorkerScriptPath, Bytes(Replacement) + Bytes(CorsGuard))
         == Bytes(Replacement) + Bytes(Replacement)
    ensures Bytes(Replacement) + Bytes(CorsGuard) != Bytes(Replacement) + Bytes(Replacement)
  {
    var g, g2, t := GuardBytes();
    PatchTwice(g, g2, t);
    assert |t + g| != |t + t|;
  }
}
