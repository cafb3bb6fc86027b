/**
 * The vault the documents live in, as a map from path to text plus the set
 * of folders: reads and writes refuse unsafe paths, writes store text with
 * `\n` line ends only, and a new file's parent folders are created shallowest
 * first.
 */
module Storage {
  import opened Text
  import opened Paths

  /** `path.includes("..")`. */
  predicate HasDotDot(s: String)
  {
    exists i :: 0 <= i < |s| - 1 && s[i] == '.' && s[i + 1] == '.'
  }

  /** isSafePath: not empty, not starting with `/` or `\`, and no `..` anywhere. */
  predicate IsSafePath(path: String)
  {
    path != [] && !StartsWith(path, "/") && !StartsWith(path, "\\") && !HasDotDot(path)
  }

  /** `content.replace(/\r\n?/g, "\n")`: every `\r\n` and every lone `\r` becomes `\n`. */
  function NormalizeNewlines(s: String): (r: String)
    ensures '\r' !in r
    ensures |r| <= |s|
  {
    if s == [] then []
    else if s[0] == '\r' then "\n" + NormalizeNewlines(if |s| > 1 && s[1] == '\n' then s[2..] else s[1..])
    else [s[0]] + NormalizeNewlines(s[1..])
  }

  /** Text with no `\r` is stored as it is. */
  lemma {:induction false} NormalizeWithoutReturns(s: String)
    requires '\r' !in s
    ensures NormalizeNewlines(s) == s
  {
    if s != [] {
      NormalizeWithoutReturns(s[1..]);
      assert [s[0]] + s[1..] == s;
    }
  }

  /** Writing what was read back stores it unchanged. */
  lemma NormalizeIdempotent(s: String)
    ensures NormalizeNewlines(NormalizeNewlines(s)) == NormalizeNewlines(s)
  {
    NormalizeWithoutReturns(NormalizeNewlines(s));
  }

  /** A `\r\n` line end becomes one `\n`. */
  lemma {:induction false} NormalizeCrLf(a: String, b: String)
    requires '\r' !in a
    ensures NormalizeNewlines(a + "\r\n" + b) == a + "\n" + NormalizeNewlines(b)
    decreases |a|
  {
    if a == [] {
      assert ([] + "\r\n" + b)[2..] == b;
    } else {
      NormalizeCrLf(a[1..], b);
      assert (a + "\r\n" + b)[1..] == a[1..] + "\r\n" + b;
    }
  }

  /** A lone `\r` line end becomes one `\n`. */
  lemma {:induction false} NormalizeLoneCr(a: String, b: String)
    requires '\r' !in a && (b == [] || b[0] != '\n')
    ensures NormalizeNewlines(a + "\r" + b) == a + "\n" + NormalizeNewlines(b)
    decreases |a|
  {
    if a == [] {
      assert ([] + "\r" + b)[1..] == b;
    } else {
      NormalizeLoneCr(a[1..], b);
      assert (a + "\r" + b)[1..] == a[1..] + "\r" + b;
    }
  }

  // ---------------------------------------------------------------------
  // the folders a new file needs

  /** The folder path after the segments `fs`, built as ensureFolder builds `current`. */
  function Cur(fs: seq<String>): String
  {
    if fs == [] then []
    else
      var c := Cur(fs[..|fs| - 1]);
      if c != [] then c + "/" + fs[|fs| - 1] else fs[|fs| - 1]
  }

  /** The folder paths ensureFolder visits, one per segment, shallowest first. */
  function Dirs(fs: seq<String>): (r: seq<String>)
    ensures |r| == |fs|
  {
    seq(|fs|, k requires 0 <= k < |fs| => Cur(fs[..k + 1]))
  }

  /** The folders above `path`: none for a bare file name. */
  function ParentDirs(path: String): seq<String>
  {
    var parts := Split(path, '/');
    if |parts| <= 1 then [] else Dirs(parts[..|parts| - 1])
  }

  /** The folders created, in order: each visited path that is neither a folder nor a file yet. */
  function NewFolders(ds: seq<String>, files: set<String>, folders: set<String>): (r: seq<String>)
    ensures forall k :: 0 <= k < |r| ==> r[k] in ds && r[k] !in files && r[k] !in folders
  {
    if ds == [] then []
    else
      var p := NewFolders(ds[..|ds| - 1], files, folders);
      var d := ds[|ds| - 1];
      if d in folders || d in files || d in p then p else p + [d]
  }

  lemma DirsAt(fs: seq<String>, i: nat)
    requires i < |fs|
    ensures Dirs(fs)[i] == Cur(fs[..i + 1])
  {
  }

  lemma CurStep(fs: seq<String>, i: nat)
    requires i < |fs|
    ensures Cur(fs[..i + 1]) == if Cur(fs[..i]) != [] then Cur(fs[..i]) + "/" + fs[i] else fs[i]
  {
    assert fs[..i + 1][..i] == fs[..i];
  }

  lemma NewFoldersStep(ds: seq<String>, i: nat, files: set<String>, folders: set<String>)
    requires i < |ds|
    ensures var p := NewFolders(ds[..i], files, folders);
      NewFolders(ds[..i + 1], files, folders) == if ds[i] in folders || ds[i] in files || ds[i] in p then p else p + [ds[i]]
  {
    assert ds[..i + 1][..i] == ds[..i];
  }

  function Elements(s: seq<String>): set<String>
  {
    set x | x in s
  }

  /** One visited folder: skipped when it exists (as folder, created folder or file), else created. */
  lemma VisitStep(ds: seq<String>, i: nat, files: set<String>, folders: set<String>, made: seq<String>)
    requires i < |ds| && made == NewFolders(ds[..i], files, folders)
    ensures var d := ds[i];
      if d in folders + Elements(made) || d in files then NewFolders(ds[..i + 1], files, folders) == made
      else NewFolders(ds[..i + 1], files, folders) == made + [d] && Elements(made + [d]) == Elements(made) + {d}
  {
    NewFoldersStep(ds, i, files, folders);
    var d := ds[i];
    assert d in Elements(made) <==> d in made;
    assert Elements(made + [d]) == Elements(made) + {d};
  }

  /** Every folder path visited extends the ones visited before it. */
  lemma {:induction false} CurExtends(fs: seq<String>, i: nat)
    requires i <= |fs|
    ensures StartsWith(Cur(fs), Cur(fs[..i]))
    decreases |fs|
  {
    if i < |fs| {
      var init := fs[..|fs| - 1];
      assert init[..i] == fs[..i];
      CurExtends(init, i);
      var c := Cur(init);
      if c != [] {
        assert (c + "/" + fs[|fs| - 1])[..|c|] == c;
      }
    } else {
      assert fs[..i] == fs;
    }
  }

  lemma DirsShallowestFirst(fs: seq<String>, i: nat, j: nat)
    requires i <= j < |fs|
    ensures StartsWith(Dirs(fs)[j], Dirs(fs)[i])
  {
    assert fs[..j + 1][..i + 1] == fs[..i + 1];
    CurExtends(fs[..j + 1], i + 1);
  }

  /** With no empty segment, the k-th folder visited is the first k+1 segments joined by `/`. */
  lemma {:induction false} CurIsJoin(fs: seq<String>)
    requires forall k :: 0 <= k < |fs| ==> fs[k] != []
    ensures Cur(fs) == Join(fs, "/")
    decreases |fs|
  {
    if |fs| == 1 {
    } else if |fs| > 1 {
      var init := fs[..|fs| - 1];
      CurIsJoin(init);
      JoinAppend(init, [fs[|fs| - 1]], "/");
      assert init + [fs[|fs| - 1]] == fs;
      assert Cur(init) != [] by {
        assert Cur(init)[..|init[0]|] == init[0] by {
          assert init[..1] == [init[0]];
          CurExtends(init, 1);
        }
      }
    }
  }

  /** Each folder created is created once, and exactly the missing ones are. */
  lemma {:induction false} NewFoldersExact(ds: seq<String>, files: set<String>, folders: set<String>)
    ensures forall d :: d in NewFolders(ds, files, folders) <==> d in ds && d !in files && d !in folders
    ensures forall i, j :: 0 <= i < j < |NewFolders(ds, files, folders)| ==>
      NewFolders(ds, files, folders)[i] != NewFolders(ds, files, folders)[j]
  {
    if ds != [] {
      NewFoldersExact(ds[..|ds| - 1], files, folders);
      assert forall d :: d in ds <==> d in ds[..|ds| - 1] || d == ds[|ds| - 1];
    }
  }

  // ---------------------------------------------------------------------
  // the vault

  class Vault {
    var files: map<String, String>
    var folders: set<String>

    constructor (files0: map<String, String>, folders0: set<String>)
      ensures files == files0 && folders == folders0
    {
      files := files0;
      folders := folders0;
    }

    /** read: refused (None) for an unsafe path; "" when no file is there. */
    method Read(path: String) returns (r: Option<String>)
      ensures !IsSafePath(path) ==> r == None
      ensures IsSafePath(path) && path in files ==> r == Some(files[path])
      ensures IsSafePath(path) && path !in files ==> r == Some([])
    {
      if !IsSafePath(path) {
        return None;
      }
      if path in files {
        return Some(files[path]);
      }
      return Some([]);
    }

    /** ensureFolder: creates, shallowest first, the folders above `path` that do not exist yet. */
    method EnsureFolder(path: String) returns (made: seq<String>)
      modifies this
      ensures files == old(files)
      ensures made == NewFolders(ParentDirs(path), old(files).Keys, old(folders))
      ensures folders == old(folders) + Elements(made)
    {
      var parts := Split(path, '/');
      made := [];
      if |parts| <= 1 {
        return;
      }
      var fs := parts[..|parts| - 1];
      ghost var ds := Dirs(fs);
      var current: String := [];
      var i := 0;
      while i < |fs|
        invariant 0 <= i <= |fs|
        invariant current == Cur(fs[..i])
        invariant files == old(files)
        invariant made == NewFolders(ds[..i], old(files).Keys, old(folders))
        invariant folders == old(folders) + Elements(made)
      {
        CurStep(fs, i);
        current := if current != [] then current + "/" + fs[i] else fs[i];
        DirsAt(fs, i);
        made := Visit(ds, i, current, old(folders), made);
        i := i + 1;
      }
      assert ds[..i] == ds;
    }

    /** One folder visited by ensureFolder: created unless it exists already as a folder or a file. */
    method Visit(ghost ds: seq<String>, ghost i: nat, current: String, ghost folders0: set<String>, made: seq<String>)
      returns (made': seq<String>)
      modifies this
      requires i < |ds| && current == ds[i]
      requires made == NewFolders(ds[..i], files.Keys, folders0) && folders == folders0 + Elements(made)
      ensures files == old(files)
      ensures made' == NewFolders(ds[..i + 1], files.Keys, folders0)
      ensures folders == folders0 + Elements(made')
    {
      VisitStep(ds, i, files.Keys, folders0, made);
      assert current in files <==> current in files.Keys;
      made' := made;
      if current !in folders && current !in files {
        folders := folders + {current};
        made' := made + [current];
      }
    }

    /**
     * write: refused (false) for an unsafe path; otherwise the text is stored
     * with `\n` line ends, in place when the file exists, else after its
     * folders are ensured.
     */
    method Write(path: String, content: String) returns (ok: bool, made: seq<String>)
      modifies this
      ensures ok <==> IsSafePath(path)
      ensures !ok ==> files == old(files) && folders == old(folders) && made == []
      ensures ok ==> files == old(files)[path := NormalizeNewlines(content)]
      ensures ok && path in old(files) ==> folders == old(folders) && made == []
      ensures ok && path !in old(files) ==> made == NewFolders(ParentDirs(path), old(files).Keys, old(folders))
      ensures ok ==> folders == old(folders) + Elements(made)
    {
      made := [];
      if !IsSafePath(path) {
        return false, made;
      }
      var normalized := NormalizeNewlines(content);
      if path in files {
        files := files[path := normalized];
        return true, made;
      }
      made := EnsureFolder(path);
      files := files[path := normalized];
      ok := true;
    }
  }

  // ---------------------------------------------------------------------
  // the planner's own paths are safe

  lemma FileNameSafe(t: PlannerType)
    ensures !HasDotDot(FileName(t)) && FileName(t)[0] == 'L'
  {
    var n := TypeName(t);
    var f := FileName(t);
    var head := "LifePlanner - ";
    assert f == head + n + ".md";
    assert '.' !in head;
    forall i | 0 <= i < |f| - 1 ensures !(f[i] == '.' && f[i + 1] == '.') {
      if i < |head| {
        assert f[i] == head[i];
      } else if i < |head| + |n| {
        assert f[i] == n[i - |head|];
      } else {
        assert f[|f| - 2] == 'm';
      }
    }
  }

  lemma NoDotDotJoin(dir: String, f: String)
    requires !HasDotDot(dir) && !HasDotDot(f)
    ensures !HasDotDot(dir + "/" + f)
  {
    var r := dir + "/" + f;
    forall i | 0 <= i < |r| - 1 ensures !(r[i] == '.' && r[i + 1] == '.') {
      if i + 1 < |dir| {
        assert r[i] == dir[i] && r[i + 1] == dir[i + 1];
      } else if i + 1 == |dir| {
        assert r[i + 1] == '/';
      } else if i == |dir| {
        assert r[i] == '/';
      } else {
        assert r[i] == f[i - |dir| - 1] && r[i + 1] == f[i - |dir|];
      }
    }
  }

  /** The base folder keeps the setting's safety: no `..` and no `\`. */
  lemma BaseDirSafe(baseDir: String)
    requires !HasDotDot(baseDir) && '\\' !in baseDir
    ensures !HasDotDot(NormalizeBaseDir(baseDir)) && '\\' !in NormalizeBaseDir(baseDir)
  {
    var dir := NormalizeBaseDir(baseDir);
    var a, b := NormalizeBaseDirSlice(baseDir);
    forall i | 0 <= i < |dir| - 1 ensures !(dir[i] == '.' && dir[i + 1] == '.') {
      assert dir[i] == baseDir[a + i] && dir[i + 1] == baseDir[a + i + 1];
    }
    forall i | 0 <= i < |dir| ensures dir[i] != '\\' {
      assert dir[i] == baseDir[a + i];
    }
  }

  /**
   * A path resolved from a base folder setting without `..` or `\` is safe to
   * read and write.
   */
  lemma ResolvedSafe(t: PlannerType, baseDir: String)
    requires !HasDotDot(baseDir) && '\\' !in baseDir
    ensures IsSafePath(ResolvePath(t, baseDir))
  {
    var dir := NormalizeBaseDir(baseDir);
    var f := FileName(t);
    var r := ResolvePath(t, baseDir);
    BaseDirSafe(baseDir);
    FileNameSafe(t);
    if dir != [] {
      NoDotDotJoin(dir, f);
      assert r[0] == dir[0];
    }
    assert r[..1] == [r[0]];
  }
}
