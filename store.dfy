/** The on-disk cache as the proxy meets it through the os package: regular
    files with their bytes, directories (created by os.MkdirAll, never
    removed except by the refresh endpoint) and the paths the process may
    not write. This is a value passed into and out of the handlers; no
    crash, permission model or concurrency beyond `unwritable`. */
module Store {
  import opened Wrappers
  import opened Text

  datatype Store = Store(files: map<string, seq<byte>>, dirs: set<string>, unwritable: set<string>)

  predicate HasPrefix(s: string, p: string)
  {
    |p| <= |s| && s[..|p|] == p
  }

  /** The directories os.MkdirAll(filepath.Dir(p)) needs: every prefix of
      `p` that ends just before a '/'. */
  function ParentDirs(p: string): set<string>
  {
    set i | 0 < i < |p| && p[i] == '/' :: p[..i]
  }

  /** A name directly below a one-element directory has that directory as
      its only parent. */
  lemma ParentDirsOfChild(top: string, name: string)
    requires '/' !in top && '/' !in name && top != ""
    ensures ParentDirs(top + "/" + name) == {top}
  {
    var p := top + "/" + name;
    assert p[|top|] == '/' && p[..|top|] == top;
    assert forall j :: 0 <= j < |top| ==> p[j] == top[j];
    assert forall j :: |top| < j < |p| ==> p[j] == name[j - |top| - 1];
  }

  /** Some directory on the way to `p` is a regular file. */
  predicate BlockedByFile(s: Store, p: string)
  {
    exists d :: d in ParentDirs(p) && d in s.files
  }

  /** fileExists (cmd/main.go:547-550): true unless os.Stat reports "does not
      exist". A directory exists, and so does a path below a regular file,
      for which Stat reports "not a directory" instead. */
  predicate Exists(s: Store, p: string)
  {
    p in s.files || p in s.dirs || BlockedByFile(s, p)
  }

  /** No path is both a regular file and a directory. */
  predicate Valid(s: Store)
  {
    s.files.Keys !! s.dirs
  }

  datatype ReadResult = Data(bytes: seq<byte>) | ReadFailed(msg: string)

  /** os.ReadFile, with the text of the error it reports. */
  function Read(s: Store, p: string): (r: ReadResult)
    ensures r.Data? <==> p in s.files
  {
    if p in s.files then Data(s.files[p])
    else if p in s.dirs then ReadFailed("read " + p + ": is a directory")
    else if BlockedByFile(s, p) then ReadFailed("open " + p + ": not a directory")
    else ReadFailed("open " + p + ": no such file or directory")
  }

  datatype WriteResult = WriteResult(ok: bool, store: Store)

  /** os.MkdirAll(filepath.Dir(p)) followed by os.WriteFile(p, b): the
      directories fail when one of them is a file; the file fails when `p`
      is a directory or not writable, after the directories were made. */
  function Write(s: Store, p: string, b: seq<byte>): WriteResult
  {
    if BlockedByFile(s, p) then WriteResult(false, s)
    else
      var made := s.(dirs := s.dirs + ParentDirs(p));
      if p in s.dirs || p in s.unwritable then WriteResult(false, made)
      else WriteResult(true, made.(files := made.files[p := b]))
  }

  /** Writing then reading a path gives the bytes back, and nothing else
      changes except the directories on the way. */
  lemma WriteThenRead(s: Store, p: string, b: seq<byte>, q: string)
    requires Write(s, p, b).ok
    ensures Read(Write(s, p, b).store, p) == Data(b)
    ensures q != p ==> Read(Write(s, p, b).store, q).Data? == Read(s, q).Data?
    ensures q != p && q in s.files ==> Read(Write(s, p, b).store, q) == Read(s, q)
  {
  }

  /** Writing keeps files and directories apart: the directories it makes
      are not files (else it fails first), and the file is not a directory. */
  lemma WriteKeepsValid(s: Store, p: string, b: seq<byte>)
    requires Valid(s)
    ensures Valid(Write(s, p, b).store)
  {
    assert p !in ParentDirs(p);
  }

  /** The path itself or anything below it. */
  predicate Under(q: string, p: string)
  {
    q == p || HasPrefix(q, p + "/")
  }

  /** os.RemoveAll(p): `p` and everything below it go; a missing path is
      not an error. */
  function RemoveAll(s: Store, p: string): (r: (Option<string>, Store))
  {
    if p in s.unwritable then (Some("unlinkat " + p + ": permission denied"), s)
    else
      (None, s.(files := map q | q in s.files && !Under(q, p) :: s.files[q],
                dirs := set q | q in s.dirs && !Under(q, p)))
  }

  /** os.Remove(p): a file, or an empty directory. */
  function Remove(s: Store, p: string): (r: (Option<string>, Store))
  {
    if p in s.unwritable then (Some("remove " + p + ": permission denied"), s)
    else if p in s.files then (None, s.(files := s.files - {p}))
    else if p in s.dirs then
      if (exists q :: q in s.files && HasPrefix(q, p + "/")) || (exists q :: q in s.dirs && HasPrefix(q, p + "/")) then
        (Some("remove " + p + ": directory not empty"), s)
      else (None, s.(dirs := s.dirs - {p}))
    else if BlockedByFile(s, p) then (Some("remove " + p + ": not a directory"), s)
    else (Some("remove " + p + ": no such file or directory"), s)
  }

  /** After a successful RemoveAll(p), nothing at or below `p` exists (as
      long as no directory above `p` is a regular file). */
  lemma RemoveAllClears(s: Store, p: string, q: string)
    requires RemoveAll(s, p).0.None?
    requires forall d :: d in ParentDirs(p) ==> d !in s.files
    requires Under(q, p)
    ensures !Exists(RemoveAll(s, p).1, q)
  {
    var t := RemoveAll(s, p).1;
    forall d | d in ParentDirs(q) ensures d !in t.files {
      var i :| 0 < i < |q| && q[i] == '/' && d == q[..i];
      if |d| < |p| {
        assert q[..|p|] == p;
        assert p[i] == '/' && p[..i] == d;
        assert d in ParentDirs(p);
      } else if |d| == |p| {
        assert q[..|p|] == p;
        assert d == p;
      } else {
        assert q[..|p| + 1] == p + "/";
        assert d[..|p| + 1] == p + "/";
      }
    }
  }

  /** After a successful Remove(p), `p` no longer exists (as long as no
      directory above it is a regular file). */
  lemma RemoveClears(s: Store, p: string)
    requires Valid(s)
    requires Remove(s, p).0.None?
    requires !BlockedByFile(s, p)
    ensures !Exists(Remove(s, p).1, p)
  {
  }

  /** Removing or writing elsewhere leaves a file that is not below the
      removed path. */
  lemma RemoveAllKeeps(s: Store, p: string, q: string)
    requires RemoveAll(s, p).0.None? && q in s.files && !Under(q, p)
    ensures Read(RemoveAll(s, p).1, q) == Read(s, q)
  {
  }
}
