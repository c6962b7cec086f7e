/** Go's path/filepath on a Unix host, where the separator is '/':
    Clean, Join and Ext, as the proxy uses them to place cache files. */
module FilePath {
  import opened Text

  const Separator: char := '/'

  /** The names that survive Clean's first two rules: empty elements (from
      repeated separators) and "." elements are dropped. */
  function Names(parts: seq<string>): (names: seq<string>)
    ensures forall i :: 0 <= i < |names| ==> names[i] != "" && names[i] != "."
    decreases |parts|
  {
    if |parts| == 0 then []
    else (if parts[0] == "" || parts[0] == "." then [] else [parts[0]]) + Names(parts[1..])
  }

  lemma {:induction false} NamesConcat(a: seq<string>, b: seq<string>)
    ensures Names(a + b) == Names(a) + Names(b)
    decreases |a|
  {
    if |a| > 0 {
      assert (a + b)[1..] == a[1..] + b;
      NamesConcat(a[1..], b);
    } else {
      assert a + b == b;
    }
  }

  /** The path elements of `p` that Clean keeps before it resolves "..". */
  function Elements(p: string): seq<string>
  {
    Names(Split(p, Separator))
  }

  predicate Rooted(p: string)
  {
    |p| > 0 && p[0] == Separator
  }

  /** Clean's third and fourth rules, left to right: a ".." element removes
      the real name before it; with nothing to remove it is dropped from a
      rooted path and kept in a relative one. */
  function Resolve(done: seq<string>, rest: seq<string>, rooted: bool): seq<string>
    decreases |rest|
  {
    if |rest| == 0 then done
    else if rest[0] == ".." then
      if |done| > 0 && done[|done| - 1] != ".." then Resolve(done[..|done| - 1], rest[1..], rooted)
      else if rooted then Resolve(done, rest[1..], rooted)
      else Resolve(done + [".."], rest[1..], rooted)
    else Resolve(done + [rest[0]], rest[1..], rooted)
  }

  /** The text of a cleaned path from its resolved names. */
  function Render(rooted: bool, names: seq<string>): string
  {
    if rooted then [Separator] + JoinWith(names, Separator)
    else if names == [] then "."
    else JoinWith(names, Separator)
  }

  /** filepath.Clean. */
  function Clean(p: string): string
  {
    Render(Rooted(p), Resolve([], Elements(p), Rooted(p)))
  }

  /** filepath.Join: leading empty elements are skipped, the rest are joined
      with the separator and cleaned; all-empty gives "". */
  function Join(elems: seq<string>): string
    decreases |elems|
  {
    if |elems| == 0 then ""
    else if elems[0] == "" then Join(elems[1..])
    else Clean(JoinWith(elems, Separator))
  }

  /** filepath.Ext: the suffix of the last element that starts at its last
      '.', or "" when the last element has no '.'. */
  function Ext(p: string): (e: string)
    ensures |e| <= |p| && e == p[|p| - |e|..]
    ensures e != "" ==> e[0] == '.'
    ensures forall k :: 0 <= k < |e| ==> e[k] != Separator
    ensures forall k :: 0 < k < |e| ==> e[k] != '.'
    ensures e == "" <==> forall k :: 0 <= k < |p| && p[k] == '.' ==> Separator in p[k + 1..]
    decreases |p|
  {
    if |p| == 0 || p[|p| - 1] == Separator then ""
    else if p[|p| - 1] == '.' then "."
    else
      var e := Ext(p[..|p| - 1]);
      if e == "" then "" else e + [p[|p| - 1]]
  }

  /** The elements of all the given strings, in order. */
  function AllElements(elems: seq<string>): seq<string>
    decreases |elems|
  {
    if |elems| == 0 then [] else Elements(elems[0]) + AllElements(elems[1..])
  }

  lemma AllElementsCons(x: string, rest: seq<string>)
    ensures AllElements([x] + rest) == Elements(x) + AllElements(rest)
  {
    assert ([x] + rest)[1..] == rest;
  }

  lemma {:induction false} ElementsOfJoinWith(elems: seq<string>)
    ensures Elements(JoinWith(elems, Separator)) == AllElements(elems)
    decreases |elems|
  {
    if |elems| == 0 {
      assert Split("", Separator) == [""];
      assert [""][1..] == [];
    } else if |elems| == 1 {
      assert AllElements(elems[1..]) == [];
    } else {
      ElementsOfJoinWith(elems[1..]);
      SplitConcat(elems[0], JoinWith(elems[1..], Separator), Separator);
      NamesConcat(Split(elems[0], Separator), Split(JoinWith(elems[1..], Separator), Separator));
    }
  }

  lemma {:induction false} JoinWithStart(elems: seq<string>)
    requires |elems| > 0 && elems[0] != ""
    ensures |JoinWith(elems, Separator)| > 0 && JoinWith(elems, Separator)[0] == elems[0][0]
  {
  }

  /** Join, read element-wise: the elements of all the arguments are resolved
      together, and the result is rooted when the first non-empty argument is. */
  lemma {:induction false} JoinByElements(elems: seq<string>)
    requires |elems| > 0 && elems[0] != ""
    ensures Join(elems) == Render(Rooted(elems[0]), Resolve([], AllElements(elems), Rooted(elems[0])))
  {
    ElementsOfJoinWith(elems);
    JoinWithStart(elems);
  }

  /** Without ".." elements, resolving only appends. */
  lemma {:induction false} ResolveNoDotDot(done: seq<string>, rest: seq<string>, rooted: bool)
    requires ".." !in rest
    ensures Resolve(done, rest, rooted) == done + rest
    decreases |rest|
  {
    if |rest| > 0 {
      assert ".." !in rest[1..];
      ResolveNoDotDot(done + [rest[0]], rest[1..], rooted);
      assert done + [rest[0]] + rest[1..] == done + rest;
    }
  }

  /** A single name without separators is its own only element. */
  lemma {:induction false} ElementsOfName(name: string)
    requires Separator !in name && name != "" && name != "."
    ensures Elements(name) == [name]
  {
    SplitNoSep(name, Separator);
    assert [name][1..] == [];
    assert Names([name]) == [name] + Names([]);
  }

  lemma ElementsOfRoot()
    ensures Elements("/") == []
  {
    assert Split("/", Separator) == ["", ""] by {
      assert "/"[1..] == "";
    }
    assert ["", ""][1..] == [""];
    assert [""][1..] == [];
  }

  /** Dropping names keeps only names that were there. */
  lemma {:induction false} NamesAvoids(parts: seq<string>, c: char)
    requires Avoids(parts, c)
    ensures Avoids(Names(parts), c)
    decreases |parts|
  {
    if |parts| > 0 {
      assert Avoids(parts[1..], c) by {
        forall i | 0 <= i < |parts[1..]| ensures c !in parts[1..][i] {
          assert parts[1..][i] == parts[i + 1];
        }
      }
      NamesAvoids(parts[1..], c);
      var head := if parts[0] == "" || parts[0] == "." then [] else [parts[0]];
      assert Avoids(head, c);
      assert Names(parts) == head + Names(parts[1..]);
    }
  }

  /** Resolving ".." adds no character other than '.'. */
  lemma {:induction false} ResolveAvoids(done: seq<string>, rest: seq<string>, rooted: bool, c: char)
    requires Avoids(done, c) && Avoids(rest, c) && c != '.'
    ensures Avoids(Resolve(done, rest, rooted), c)
    decreases |rest|
  {
    if |rest| > 0 {
      assert Avoids(rest[1..], c) by {
        forall i | 0 <= i < |rest[1..]| ensures c !in rest[1..][i] {
          assert rest[1..][i] == rest[i + 1];
        }
      }
      if rest[0] == ".." {
        if |done| > 0 && done[|done| - 1] != ".." {
          var kept := done[..|done| - 1];
          assert Avoids(kept, c) by {
            forall i | 0 <= i < |kept| ensures c !in kept[i] {
              assert kept[i] == done[i];
            }
          }
          ResolveAvoids(kept, rest[1..], rooted, c);
        } else if rooted {
          ResolveAvoids(done, rest[1..], rooted, c);
        } else {
          assert Avoids(done + [".."], c) by {
            forall i | 0 <= i < |done| + 1 ensures c !in (done + [".."])[i] {
              if i < |done| { assert (done + [".."])[i] == done[i]; }
            }
          }
          ResolveAvoids(done + [".."], rest[1..], rooted, c);
        }
      } else {
        assert Avoids(done + [rest[0]], c) by {
          forall i | 0 <= i < |done| + 1 ensures c !in (done + [rest[0]])[i] {
            if i < |done| { assert (done + [rest[0]])[i] == done[i]; }
          }
        }
        ResolveAvoids(done + [rest[0]], rest[1..], rooted, c);
      }
    }
  }

  /** Clean adds no character other than the separator and '.'. */
  lemma CleanAvoids(p: string, c: char)
    requires c !in p && c != Separator && c != '.'
    ensures c !in Clean(p)
  {
    SplitAvoids(p, Separator, c);
    NamesAvoids(Split(p, Separator), c);
    assert Avoids([], c);
    ResolveAvoids([], Elements(p), Rooted(p), c);
    JoinWithAvoids(Resolve([], Elements(p), Rooted(p)), Separator, c);
  }

  /** Join adds no character other than the separator and '.'. */
  lemma {:induction false} JoinAvoids(elems: seq<string>, c: char)
    requires Avoids(elems, c) && c != Separator && c != '.'
    ensures c !in Join(elems)
    decreases |elems|
  {
    if |elems| > 0 {
      if elems[0] == "" {
        assert Avoids(elems[1..], c) by {
          forall i | 0 <= i < |elems[1..]| ensures c !in elems[1..][i] {
            assert elems[1..][i] == elems[i + 1];
          }
        }
        JoinAvoids(elems[1..], c);
      } else {
        JoinWithAvoids(elems, Separator, c);
        CleanAvoids(JoinWith(elems, Separator), c);
      }
    }
  }
}
