/**
 * app/services/repository_service.py: the repository store on disk, its file
 * walk, the extension statistics and the single-file operations.
 *
 * The store is the upload directory: a map from repository id to the files of
 * that repository's tree, in the order the walk visits them. Cloning and
 * extraction are outside calls; their outcome (the tree they leave, or a
 * failure) is an input.
 */
module RepositoryService {
  import opened Wrappers
  import opened Strings
  import opened PyPath
  import opened Errors
  import opened Models

  /** `settings.UPLOAD_DIR`, `Path("./uploads")`. */
  const UploadDir: FsPath := FsPath(false, ["uploads"])

  /** A file name as a directory listing returns it: never holds a '/'. */
  type FileName = s: string | '/' !in s

  /** One file of a tree: its directory relative to the repository root (as
      segments), its name, its size in bytes and its text. */
  datatype FileRecord = FileRecord(dir: seq<string>, name: FileName, size: nat, content: string)

  /** The segments of a file's path below the repository root. */
  function PathOf(f: FileRecord): seq<string>
  {
    f.dir + [f.name]
  }

  /** `os.path.relpath(file_path, repo_dir)`. */
  function RelPath(f: FileRecord): string
  {
    Join(PathOf(f), "/")
  }

  /** `os.path.join(root, file)` for the walk's `root` below `repoDir`. */
  function WalkPath(repoDir: string, f: FileRecord): string
  {
    Join([repoDir] + PathOf(f), "/")
  }

  /** What a real walk produces: plain segments and no path twice. */
  predicate WellFormedTree(files: seq<FileRecord>)
  {
    && (forall f :: f in files ==> Plain(f.name) && forall s :: s in f.dir ==> Plain(s))
    && forall i, j :: 0 <= i < j < |files| ==> PathOf(files[i]) != PathOf(files[j])
  }

  // ---------------------------------------------------------------------
  // Extension statistics (`Counter` over the list comprehension)
  // ---------------------------------------------------------------------

  /** The statistics key of a path: its extension without the dot, lower-cased;
      None when `os.path.splitext` finds no extension. */
  function StatKey(path: string): (r: Option<string>)
    ensures r.None? <==> Extension(path) == ""
    ensures r.Some? ==> r.value == Lower(Extension(path)[1..])
  {
    var e := Extension(path);
    if e == "" then None else Some(Lower(e[1..]))
  }

  /** `[splitext(p)[1][1:].lower() for p in paths if splitext(p)[1]]`. */
  function PathKeys(paths: seq<string>): seq<string>
  {
    if |paths| == 0 then []
    else
      (match StatKey(paths[0]) case Some(k) => [k] case None => []) + PathKeys(paths[1..])
  }

  /** The same list, read off the file names. */
  function NameKeys(files: seq<FileRecord>): seq<string>
  {
    if |files| == 0 then []
    else
      (match StatKey(files[0].name) case Some(k) => [k] case None => []) + NameKeys(files[1..])
  }

  /** The files that have an extension. */
  function WithExtension(files: seq<FileRecord>): (r: seq<FileRecord>)
    ensures forall f :: f in r <==> f in files && Extension(f.name) != ""
    ensures |r| <= |files|
  {
    if |files| == 0 then []
    else (if Extension(files[0].name) != "" then [files[0]] else []) + WithExtension(files[1..])
  }

  /** `dict(Counter(s))`: every element of `s` maps to how often it occurs. */
  function Counter(s: seq<string>): (m: map<string, nat>)
    ensures forall k :: k in m <==> k in s
    ensures forall k :: k in m ==> m[k] == multiset(s)[k]
  {
    if |s| == 0 then map[]
    else
      var init, e := s[..|s| - 1], s[|s| - 1];
      assert s == init + [e];
      var m := Counter(init);
      m[e := (if e in m then m[e] else 0) + 1]
  }

  /** `language_stats` of a tree. */
  function LanguageStats(files: seq<FileRecord>): map<string, nat>
  {
    Counter(NameKeys(files))
  }

  ghost function Pick(keys: set<string>): string
    requires keys != {}
  {
    var k :| k in keys; k
  }

  /** The sum of a table's counts. */
  ghost function SumValues(m: map<string, nat>): nat
    decreases |m|
  {
    if |m| == 0 then 0
    else
      var k := Pick(m.Keys);
      assert |m - {k}| < |m| by { assert (m - {k}).Keys == m.Keys - {k}; }
      m[k] + SumValues(m - {k})
  }

  lemma {:induction false} SumRemove(m: map<string, nat>, k: string)
    requires k in m
    ensures SumValues(m) == m[k] + SumValues(m - {k})
    decreases |m|
  {
    var j := Pick(m.Keys);
    assert (m - {j}).Keys == m.Keys - {j};
    assert (m - {k}).Keys == m.Keys - {k};
    if j != k {
      SumRemove(m - {j}, k);
      SumRemove(m - {k}, j);
      assert m - {j} - {k} == m - {k} - {j};
    }
  }

  /** Counting one more occurrence adds one to the total. */
  lemma SumBump(m: map<string, nat>, e: string)
    ensures SumValues(m[e := (if e in m then m[e] else 0) + 1]) == SumValues(m) + 1
  {
    var m' := m[e := (if e in m then m[e] else 0) + 1];
    SumRemove(m', e);
    assert m' - {e} == m - {e};
    if e in m {
      SumRemove(m, e);
    } else {
      assert m - {e} == m;
    }
  }

  lemma {:induction false} CounterTotal(s: seq<string>)
    ensures SumValues(Counter(s)) == |s|
  {
    if |s| > 0 {
      var init := s[..|s| - 1];
      CounterTotal(init);
      SumBump(Counter(init), s[|s| - 1]);
    }
  }

  lemma {:induction false} NameKeysLength(files: seq<FileRecord>)
    ensures |NameKeys(files)| == |WithExtension(files)|
  {
    if |files| > 0 {
      NameKeysLength(files[1..]);
    }
  }

  /** The statistics count every file that has an extension exactly once. */
  lemma LanguageStatsTotal(files: seq<FileRecord>)
    ensures SumValues(LanguageStats(files)) == |WithExtension(files)|
  {
    CounterTotal(NameKeys(files));
    NameKeysLength(files);
  }

  lemma {:induction false} NameKeysMembers(files: seq<FileRecord>, k: string)
    ensures k in NameKeys(files) <==> exists f :: f in files && StatKey(f.name) == Some(k)
  {
    if |files| > 0 {
      NameKeysMembers(files[1..], k);
      assert forall f :: f in files <==> f == files[0] || f in files[1..];
    }
  }

  /** A key is in the statistics exactly when some file's extension gives it. */
  lemma LanguageStatsKeys(files: seq<FileRecord>, k: string)
    ensures k in LanguageStats(files) <==> exists f :: f in files && StatKey(f.name) == Some(k)
  {
    NameKeysMembers(files, k);
  }

  /** A dot-file has no extension. */
  lemma DotFileHasNoKey()
    ensures StatKey(".gitignore") == None
  {
    assert RFind(".gitignore", '.') == 0;
  }

  /** A trailing dot counts under the empty key. */
  lemma TrailingDotKey()
    ensures StatKey("notes.") == Some("")
  {
    assert RFind("notes.", '.') == 5;
    assert HasStem("notes.", 0, 5) by { assert "notes."[0] != '.'; }
  }

  /** The key is lower-cased and taken after the last dot only. */
  lemma KeyAfterLastDot()
    ensures StatKey("site.tar.GZ") == Some("gz")
  {
    var p := "site.tar.GZ";
    assert RFind(p, '.') == 8;
    assert HasStem(p, 0, 8) by { assert p[0] != '.'; }
    assert p[9..] == "GZ";
    assert Lower("GZ") == "gz";
  }

  lemma {:induction false} JoinSnoc(xs: seq<string>, y: string)
    requires |xs| >= 1
    ensures Join(xs + [y], "/") == Join(xs, "/") + "/" + y
  {
    if |xs| > 1 {
      assert (xs + [y])[1..] == xs[1..] + [y];
      JoinSnoc(xs[1..], y);
    }
  }

  lemma StatKeyOfWalkPath(repoDir: string, f: FileRecord)
    ensures StatKey(WalkPath(repoDir, f)) == StatKey(f.name)
  {
    var front := [repoDir] + f.dir;
    assert [repoDir] + PathOf(f) == front + [f.name];
    JoinSnoc(front, f.name);
    ExtensionOfChild(Join(front, "/"), f.name);
  }

  lemma {:induction false} PathKeysOfWalk(repoDir: string, files: seq<FileRecord>, paths: seq<string>)
    requires |paths| == |files|
    requires forall j :: 0 <= j < |files| ==> paths[j] == WalkPath(repoDir, files[j])
    ensures PathKeys(paths) == NameKeys(files)
  {
    if |files| > 0 {
      StatKeyOfWalkPath(repoDir, files[0]);
      PathKeysOfWalk(repoDir, files[1..], paths[1..]);
    }
  }

  datatype Analysis = Analysis(fileCount: nat, languageStats: map<string, nat>)

  /** `analyze_repository`: walks the tree collecting every file path, then
      counts the extensions. */
  method AnalyzeRepository(repoDir: string, files: seq<FileRecord>) returns (info: Analysis)
    ensures info.fileCount == |files|
    ensures info.languageStats == LanguageStats(files)
  {
    var allFiles: seq<string> := [];
    for i := 0 to |files|
      invariant |allFiles| == i
      invariant forall j :: 0 <= j < i ==> allFiles[j] == WalkPath(repoDir, files[j])
    {
      allFiles := allFiles + [WalkPath(repoDir, files[i])];
    }
    var extensions := PathKeys(allFiles);
    PathKeysOfWalk(repoDir, files, allFiles);
    info := Analysis(|allFiles|, Counter(extensions));
  }

  // ---------------------------------------------------------------------
  // Listing
  // ---------------------------------------------------------------------

  /** One entry of a listing; `extension` is the raw extension without its dot. */
  datatype FileEntry = FileEntry(path: string, name: string, size: nat, extension: string)

  /** The extension as the listing reports it: not lower-cased, "" when none. */
  function RawExtension(name: string): (r: string)
    ensures Extension(name) == "" ==> r == ""
    ensures Extension(name) != "" ==> Extension(name) == "." + r
  {
    var e := Extension(name);
    if e != "" then e[1..] else ""
  }

  function EntryOf(f: FileRecord): FileEntry
  {
    FileEntry(RelPath(f), f.name, f.size, RawExtension(f.name))
  }

  /** A truthy filter keeps only names ending in "." + filter, case-sensitively. */
  predicate Listed(f: FileRecord, fileFilter: Option<string>)
  {
    !(fileFilter.Some? && fileFilter.value != "") || EndsWith(f.name, "." + fileFilter.value)
  }

  /** The entries of the listed files, in walk order. */
  function Listing(files: seq<FileRecord>, fileFilter: Option<string>): (r: seq<FileEntry>)
    ensures |r| <= |files|
    ensures (fileFilter.None? || fileFilter == Some("")) ==>
              |r| == |files| && forall i :: 0 <= i < |files| ==> r[i] == EntryOf(files[i])
  {
    if |files| == 0 then []
    else
      var init, f := files[..|files| - 1], files[|files| - 1];
      assert files == init + [f];
      Listing(init, fileFilter) + (if Listed(f, fileFilter) then [EntryOf(f)] else [])
  }

  /** An entry is listed exactly when some file passing the filter yields it. */
  lemma {:induction false} ListingMembers(files: seq<FileRecord>, fileFilter: Option<string>)
    ensures forall e :: e in Listing(files, fileFilter) <==>
              exists f :: f in files && Listed(f, fileFilter) && e == EntryOf(f)
  {
    if |files| > 0 {
      var init, f := files[..|files| - 1], files[|files| - 1];
      assert files == init + [f];
      ListingMembers(init, fileFilter);
      var rest := Listing(init, fileFilter);
      assert Listing(files, fileFilter) == rest + (if Listed(f, fileFilter) then [EntryOf(f)] else []);
      forall e | e in Listing(files, fileFilter)
        ensures exists g :: g in files && Listed(g, fileFilter) && e == EntryOf(g)
      {
        if e in rest {
          var g :| g in init && Listed(g, fileFilter) && e == EntryOf(g);
          assert g in files;
        } else {
          assert f in files;
        }
      }
      forall e | exists g :: g in files && Listed(g, fileFilter) && e == EntryOf(g)
        ensures e in Listing(files, fileFilter)
      {
        var g :| g in files && Listed(g, fileFilter) && e == EntryOf(g);
        if g in init { assert e in rest; } else { assert g == f; }
      }
    }
  }

  /** The filter is case-sensitive while the statistics lower-case: "A.PY" counts
      under "py" but a "py" filter does not list it. */
  lemma FilterIsCaseSensitive()
    ensures StatKey("A.PY") == Some("py")
    ensures !Listed(FileRecord([], "A.PY", 0, ""), Some("py"))
    ensures RawExtension("A.PY") == "PY"
  {
    assert RFind("A.PY", '.') == 1 && HasStem("A.PY", 0, 1) by { assert "A.PY"[0] != '.'; }
    assert Lower("PY") == "py";
    assert "A.PY"[1..] == ".PY";
  }

  // ---------------------------------------------------------------------
  // Fetching one file through a joined path
  // ---------------------------------------------------------------------

  /** What a path names in the working directory. */
  datatype Node = Missing | Directory | File(content: string)

  function FirstWithPath(files: seq<FileRecord>, segs: seq<string>): (r: Option<FileRecord>)
    ensures r.Some? ==> r.value in files && PathOf(r.value) == segs
    ensures r.None? ==> forall f :: f in files ==> PathOf(f) != segs
  {
    if |files| == 0 then None
    else if PathOf(files[0]) == segs then Some(files[0])
    else FirstWithPath(files[1..], segs)
  }

  /** What `segs` names inside a repository tree: a file, a directory on the
      way to one, or nothing. */
  function InTree(files: seq<FileRecord>, segs: seq<string>): Node
  {
    if |segs| == 0 then Directory
    else match FirstWithPath(files, segs)
      case Some(f) => File(f.content)
      case None =>
        if exists f :: f in files && segs < PathOf(f) then Directory else Missing
  }

  /** The file system around the upload directory: the working directory's
      absolute location, and what each absolute location outside the upload
      directory names. */
  datatype Host = Host(cwd: seq<string>, outside: seq<string> -> Node)

  /** The absolute location of the upload directory. */
  function UploadRoot(host: Host): seq<string>
  {
    host.cwd + ["uploads"]
  }

  /** What the absolute location `at` names: below the upload directory the
      stored trees, anywhere else whatever the host holds. */
  function Lookup(host: Host, repos: map<string, seq<FileRecord>>, at: seq<string>): Node
  {
    var up := UploadRoot(host);
    if up <= at then
      var rest := at[|up|..];
      if |rest| == 0 then Directory
      else if rest[0] !in repos then Missing
      else InTree(repos[rest[0]], rest[1..])
    else host.outside(at)
  }

  /** Following `segs` from the location `at` as the operating system does:
      ".." steps up only out of a directory that exists, and "/.." is "/". */
  function Walk(host: Host, repos: map<string, seq<FileRecord>>, at: seq<string>, segs: seq<string>): Node
    decreases |segs|
  {
    if |segs| == 0 then Lookup(host, repos, at)
    else if segs[0] == ".." then
      if Lookup(host, repos, at) != Directory then Missing
      else Walk(host, repos, if |at| == 0 then [] else at[..|at| - 1], segs[1..])
    else Walk(host, repos, at + [segs[0]], segs[1..])
  }

  /** What a path names; a relative path starts at the working directory. */
  function NodeAt(host: Host, repos: map<string, seq<FileRecord>>, p: FsPath): Node
  {
    Walk(host, repos, if p.absolute then [] else host.cwd, p.segments)
  }

  /** `self.upload_dir / repository_id / file_path`. */
  function FullPath(id: string, path: string): FsPath
  {
    Child(Child(UploadDir, id), path)
  }

  /** `get_file_content` on a store: the whole text of the file the joined path
      names; FileNotFoundError when nothing is there; opening a directory fails. */
  function FileContent(host: Host, repos: map<string, seq<FileRecord>>, id: string, path: string): (r: Result<string, Failure>)
    ensures NodeAt(host, repos, FullPath(id, path)) == Missing <==>
              r == Err(FileMissing("File " + path + " not found in repository " + id))
    ensures NodeAt(host, repos, FullPath(id, path)) == Directory ==> r == Err(IsADirectory)
    ensures NodeAt(host, repos, FullPath(id, path)).File? ==>
              r == Ok(NodeAt(host, repos, FullPath(id, path)).content)
  {
    match NodeAt(host, repos, FullPath(id, path))
    case Missing => Err(FileMissing("File " + path + " not found in repository " + id))
    case Directory => Err(IsADirectory)
    case File(c) => Ok(c)
  }

  lemma JoinFirst(segs: seq<string>)
    requires |segs| >= 1 && |segs[0]| >= 1
    ensures |Join(segs, "/")| >= 1 && Join(segs, "/")[0] == segs[0][0]
  {
    if |segs| > 1 {
      assert Join(segs, "/") == segs[0] + "/" + Join(segs[1..], "/");
    }
  }

  /** The path of a joined-up relative path string, below `base`. */
  lemma ChildOfJoin(base: FsPath, segs: seq<string>)
    requires |segs| >= 1
    requires forall i :: 0 <= i < |segs| ==> Kept(segs[i])
    ensures Child(base, Join(segs, "/")) == FsPath(base.absolute, base.segments + segs)
  {
    assert Kept(segs[0]);
    assert segs[0][0] in segs[0];
    JoinFirst(segs);
    PartsOfJoin(segs);
  }

  lemma FoundInTree(files: seq<FileRecord>, f: FileRecord)
    requires WellFormedTree(files) && f in files
    ensures InTree(files, PathOf(f)) == File(f.content)
  {
    var r := FirstWithPath(files, PathOf(f));
    var i :| 0 <= i < |files| && files[i] == f;
    var j :| 0 <= j < |files| && files[j] == r.value;
    assert i == j;
  }

  lemma RepoPath(id: string, f: FileRecord)
    requires Plain(id) && Plain(f.name) && forall s :: s in f.dir ==> Plain(s)
    ensures Child(Child(UploadDir, id), RelPath(f)) == FsPath(false, ["uploads", id] + PathOf(f))
  {
    assert Kept(id);
    ChildOfJoin(UploadDir, [id]);
    assert forall s :: s in PathOf(f) ==> Plain(s);
    assert forall i :: 0 <= i < |PathOf(f)| ==> PathOf(f)[i] in PathOf(f);
    ChildOfJoin(Child(UploadDir, id), PathOf(f));
    assert ["uploads"] + [id] + PathOf(f) == ["uploads", id] + PathOf(f);
  }

  lemma WalkStep(host: Host, repos: map<string, seq<FileRecord>>, at: seq<string>, seg: string, rest: seq<string>)
    ensures Walk(host, repos, at, [seg] + rest) ==
              if seg != ".." then Walk(host, repos, at + [seg], rest)
              else if Lookup(host, repos, at) != Directory then Missing
              else Walk(host, repos, if |at| == 0 then [] else at[..|at| - 1], rest)
  {
    assert ([seg] + rest)[0] == seg && ([seg] + rest)[1..] == rest;
  }

  /** Without "..", following segments is looking up where they lead. */
  lemma {:induction false} WalkPlain(host: Host, repos: map<string, seq<FileRecord>>, at: seq<string>, segs: seq<string>)
    requires forall i :: 0 <= i < |segs| ==> segs[i] != ".."
    ensures Walk(host, repos, at, segs) == Lookup(host, repos, at + segs)
    decreases |segs|
  {
    if |segs| == 0 {
      assert at + segs == at;
    } else {
      assert segs[0] != "..";
      assert Walk(host, repos, at, segs) == Walk(host, repos, at + [segs[0]], segs[1..]);
      WalkPlain(host, repos, at + [segs[0]], segs[1..]);
      assert at + [segs[0]] + segs[1..] == at + segs;
    }
  }

  /** Below a repository's directory the lookup is the tree's. */
  lemma LookupInRepository(host: Host, repos: map<string, seq<FileRecord>>, id: string, rest: seq<string>)
    requires id in repos
    ensures Lookup(host, repos, UploadRoot(host) + [id] + rest) == InTree(repos[id], rest)
  {
    var up := UploadRoot(host);
    var at := up + [id] + rest;
    assert at[..|up|] == up;
    assert at[|up|..] == [id] + rest;
  }

  /** A relative path below a repository's directory with no ".." names what
      the tree holds there. */
  lemma NodeInRepository(host: Host, repos: map<string, seq<FileRecord>>, id: string, rest: seq<string>)
    requires id in repos && Plain(id)
    requires forall i :: 0 <= i < |rest| ==> rest[i] != ".."
    ensures NodeAt(host, repos, FsPath(false, ["uploads", id] + rest)) == InTree(repos[id], rest)
  {
    var segs := ["uploads", id] + rest;
    assert forall i :: 0 <= i < |segs| ==> segs[i] != ".." by {
      forall i | 0 <= i < |segs| ensures segs[i] != ".." {
        if i >= 2 { assert segs[i] == rest[i - 2]; }
      }
    }
    WalkPlain(host, repos, host.cwd, segs);
    assert host.cwd + segs == UploadRoot(host) + [id] + rest;
    LookupInRepository(host, repos, id, rest);
  }

  /** Every listed file can be fetched by its listed path, and its whole text
      comes back. */
  lemma FetchListedFile(host: Host, repos: map<string, seq<FileRecord>>, id: string, f: FileRecord)
    requires id in repos && Plain(id) && WellFormedTree(repos[id]) && f in repos[id]
    ensures FileContent(host, repos, id, EntryOf(f).path) == Ok(f.content)
  {
    RepoPath(id, f);
    assert forall i :: 0 <= i < |PathOf(f)| ==> PathOf(f)[i] in PathOf(f);
    NodeInRepository(host, repos, id, PathOf(f));
    FoundInTree(repos[id], f);
  }

  lemma JoinEscape(other: string, f: FileRecord)
    ensures Join([".."] + [other] + PathOf(f), "/") == "../" + other + "/" + RelPath(f)
  {
    var rel := [".."] + [other] + PathOf(f);
    var up := [other] + PathOf(f);
    assert rel[1..] == up && rel[0] == "..";
    assert up[1..] == PathOf(f) && up[0] == other;
    assert Join(up, "/") == other + "/" + RelPath(f);
    assert Join(rel, "/") == ".." + "/" + Join(up, "/");
  }

  /** The path "../<other>/<file>" joined below repository `id`. */
  lemma EscapePath(id: string, other: string, f: FileRecord)
    requires Plain(id) && Plain(other) && Plain(f.name) && forall s :: s in f.dir ==> Plain(s)
    ensures Child(Child(UploadDir, id), "../" + other + "/" + RelPath(f))
            == FsPath(false, ["uploads", id, ".."] + ([other] + PathOf(f)))
  {
    var rel := [".."] + [other] + PathOf(f);
    JoinEscape(other, f);
    assert Kept(id);
    ChildOfJoin(UploadDir, [id]);
    assert forall i :: 0 <= i < |rel| ==> Kept(rel[i]) by {
      forall i | 0 <= i < |rel| ensures Kept(rel[i]) {
        if i >= 2 { assert rel[i] in PathOf(f); }
      }
    }
    ChildOfJoin(Child(UploadDir, id), rel);
    assert ["uploads"] + [id] + rel == ["uploads", id, ".."] + ([other] + PathOf(f));
  }

  /** ".." right after a repository's own segment steps up to the upload
      directory, because the repository's directory exists. */
  lemma WalkUp(host: Host, repos: map<string, seq<FileRecord>>, id: string, tail: seq<string>)
    requires id in repos && id != ".."
    requires forall i :: 0 <= i < |tail| ==> tail[i] != ".."
    ensures Walk(host, repos, host.cwd, ["uploads", id, ".."] + tail) == Lookup(host, repos, UploadRoot(host) + tail)
  {
    var up := UploadRoot(host);
    assert ["uploads", id, ".."] + tail == ["uploads"] + ([id] + ([".."] + tail));
    WalkStep(host, repos, host.cwd, "uploads", [id] + ([".."] + tail));
    WalkStep(host, repos, up, id, [".."] + tail);
    LookupInRepository(host, repos, id, []);
    assert up + [id] + [] == up + [id];
    WalkStep(host, repos, up + [id], "..", tail);
    assert (up + [id])[..|up + [id]| - 1] == up;
    WalkPlain(host, repos, up, tail);
  }

  /** Nothing keeps a fetch inside its repository: "../<other>/<path>" reads a
      file of another repository. */
  lemma FetchEscapesRepository(host: Host, repos: map<string, seq<FileRecord>>, id: string, other: string, f: FileRecord)
    requires id in repos && other in repos && Plain(id) && Plain(other)
    requires WellFormedTree(repos[other]) && f in repos[other]
    ensures FileContent(host, repos, id, "../" + other + "/" + RelPath(f)) == Ok(f.content)
  {
    EscapePath(id, other, f);
    var tail := [other] + PathOf(f);
    assert forall i :: 0 <= i < |tail| ==> tail[i] != ".." by {
      forall i | 0 <= i < |tail| ensures tail[i] != ".." {
        if i >= 1 { assert tail[i] in PathOf(f); }
      }
    }
    WalkUp(host, repos, id, tail);
    assert UploadRoot(host) + tail == UploadRoot(host) + [other] + PathOf(f);
    LookupInRepository(host, repos, other, PathOf(f));
    FoundInTree(repos[other], f);
  }

  lemma JoinDetour(d: string, f: FileRecord)
    ensures Join([d, ".."] + PathOf(f), "/") == d + "/../" + RelPath(f)
  {
    var rel := [d, ".."] + PathOf(f);
    var up := [".."] + PathOf(f);
    assert rel[1..] == up && rel[0] == d;
    assert up[1..] == PathOf(f) && up[0] == "..";
    assert Join(up, "/") == ".." + "/" + RelPath(f);
    assert Join(rel, "/") == d + "/" + Join(up, "/");
    assert d + "/" + (".." + "/" + RelPath(f)) == d + "/../" + RelPath(f);
  }

  /** The path "<d>/../<file>" joined below repository `id`. */
  lemma DetourPath(id: string, d: string, f: FileRecord)
    requires Plain(id) && Plain(d) && Plain(f.name) && forall s :: s in f.dir ==> Plain(s)
    ensures FullPath(id, d + "/../" + RelPath(f)) == FsPath(false, ["uploads", id, d, ".."] + PathOf(f))
  {
    var rel := [d, ".."] + PathOf(f);
    JoinDetour(d, f);
    assert forall i :: 0 <= i < |rel| ==> Kept(rel[i]) by {
      forall i | 0 <= i < |rel| ensures Kept(rel[i]) {
        if i >= 2 { assert rel[i] in PathOf(f); }
      }
    }
    assert Kept(id);
    ChildOfJoin(UploadDir, [id]);
    ChildOfJoin(Child(UploadDir, id), rel);
    assert ["uploads"] + [id] + rel == ["uploads", id, d, ".."] + PathOf(f);
  }

  /** ".." after a segment that is not a directory of the repository leads nowhere. */
  lemma WalkDetour(host: Host, repos: map<string, seq<FileRecord>>, id: string, d: string, tail: seq<string>)
    requires id in repos && id != ".." && d != ".." && InTree(repos[id], [d]) != Directory
    ensures Walk(host, repos, host.cwd, ["uploads", id, d, ".."] + tail) == Missing
  {
    var up := UploadRoot(host);
    assert ["uploads", id, d, ".."] + tail == ["uploads"] + ([id] + ([d] + ([".."] + tail)));
    WalkStep(host, repos, host.cwd, "uploads", [id] + ([d] + ([".."] + tail)));
    WalkStep(host, repos, up, id, [d] + ([".."] + tail));
    WalkStep(host, repos, up + [id], d, [".."] + tail);
    LookupInRepository(host, repos, id, [d]);
    WalkStep(host, repos, up + [id] + [d], "..", tail);
  }

  /** ".." is followed on disk, not cancelled in the string: "<d>/../<path>"
      is not found when `d` is not a directory of the repository, even where
      `<path>` alone names a file. */
  lemma FetchThroughMissingDirectory(host: Host, repos: map<string, seq<FileRecord>>, id: string, d: string, f: FileRecord)
    requires id in repos && Plain(id) && Plain(d) && InTree(repos[id], [d]) != Directory
    requires WellFormedTree(repos[id]) && f in repos[id]
    ensures FileContent(host, repos, id, RelPath(f)) == Ok(f.content)
    ensures FileContent(host, repos, id, d + "/../" + RelPath(f)) ==
              Err(FileMissing("File " + (d + "/../" + RelPath(f)) + " not found in repository " + id))
  {
    FetchListedFile(host, repos, id, f);
    DetourPath(id, d, f);
    WalkDetour(host, repos, id, d, PathOf(f));
    assert NodeAt(host, repos, FullPath(id, d + "/../" + RelPath(f))) == Missing;
  }

  /** An absolute `file_path` replaces the repository's directory in the join,
      so the host's file at that location is read. */
  lemma FetchReadsHost(host: Host, repos: map<string, seq<FileRecord>>, id: string, segs: seq<string>)
    requires |segs| >= 1 && forall i :: 0 <= i < |segs| ==> Plain(segs[i])
    requires !(UploadRoot(host) <= segs) && host.outside(segs).File?
    ensures FileContent(host, repos, id, "/" + Join(segs, "/")) == Ok(host.outside(segs).content)
  {
    AbsoluteParts(segs);
    assert FullPath(id, "/" + Join(segs, "/")) == FsPath(true, segs);
    assert forall i :: 0 <= i < |segs| ==> segs[i] != "..";
    WalkPlain(host, repos, [], segs);
    assert [] + segs == segs;
  }

  /** `/etc/passwd` is read from the host whatever the repository. */
  lemma FetchEtcPasswd(host: Host, repos: map<string, seq<FileRecord>>, id: string)
    requires host.outside(["etc", "passwd"]).File?
    ensures FileContent(host, repos, id, "/etc/passwd") == Ok(host.outside(["etc", "passwd"]).content)
  {
    var segs := ["etc", "passwd"];
    assert Join(segs, "/") == "etc" + "/" + Join(["passwd"], "/");
    assert "/" + Join(segs, "/") == "/etc/passwd";
    assert Plain(segs[0]) && Plain(segs[1]);
    FetchReadsHost(host, repos, id, segs);
  }

  // ---------------------------------------------------------------------
  // The service object
  // ---------------------------------------------------------------------

  /** The upload directory after `os.makedirs(repo_dir, exist_ok=True)`. */
  function WithDirectory(repos: map<string, seq<FileRecord>>, id: string): (r: map<string, seq<FileRecord>>)
    ensures id in r && r[id] == (if id in repos then repos[id] else [])
    ensures forall k :: k != id ==> (k in r <==> k in repos) && (k in repos ==> r[k] == repos[k])
  {
    if id in repos then repos else repos[id := []]
  }

  /** Creating a directory that exists changes nothing. */
  lemma WithDirectoryIdempotent(repos: map<string, seq<FileRecord>>, id: string)
    ensures WithDirectory(WithDirectory(repos, id), id) == WithDirectory(repos, id)
  {
  }

  lemma MapUpdateAfterDirectory(repos: map<string, seq<FileRecord>>, id: string, tree: seq<FileRecord>)
    ensures WithDirectory(repos, id)[id := tree] == repos[id := tree]
  {
  }

  /** The text of the FileNotFoundError that `open` raises for a missing file,
      with the path quoted as `repr` quotes a path without quotes in it. */
  function NoSuchFile(path: string): (r: string)
    ensures EndsWith(r, "'" + path + "'")
  {
    "[Errno 2] No such file or directory: '" + path + "'"
  }

  datatype IngestReport = IngestReport(
    fileCount: nat, languageStats: map<string, nat>, sourceUrl: Option<string>, status: Status)

  class RepositoryStore {
    /** The file system the upload directory sits in. */
    const host: Host
    /** The trees under the upload directory, by repository id. */
    var repos: map<string, seq<FileRecord>>
    /** The uploaded archives waiting in the temporary directory, by path. */
    var temp: set<string>

    /** `makedirs(exist_ok=True)` keeps what an earlier run left in the upload
        and temporary directories: `repos0` and `temp0` are that content. */
    constructor (host: Host, repos0: map<string, seq<FileRecord>>, temp0: set<string>)
      ensures this.host == host && repos == repos0 && temp == temp0
    {
      this.host := host;
      repos := repos0;
      temp := temp0;
    }

    /** `str(self.upload_dir / repository_id)`. */
    static function RepoDirName(id: string): string
    {
      "uploads/" + id
    }

    /** `create_repository_directory`. */
    method CreateRepositoryDirectory(id: string) returns (dir: FsPath)
      modifies this`repos
      ensures repos == WithDirectory(old(repos), id)
      ensures dir == Child(UploadDir, id)
    {
      if id !in repos {
        repos := repos[id := []];
      }
      dir := Child(UploadDir, id);
    }

    /** `clone_git_repository`; `cloned` is the tree git leaves in the fresh
        directory, or None when the clone raises. */
    method CloneGitRepository(gitUrl: string, id: string, cloned: Option<seq<FileRecord>>)
      returns (r: Result<IngestReport, Failure>)
      modifies this`repos
      ensures cloned.None? ==> r == Err(Foreign("git")) && repos == WithDirectory(old(repos), id)
      ensures cloned.Some? ==> repos == old(repos)[id := cloned.value]
      ensures cloned.Some? ==> r == Ok(IngestReport(|cloned.value|, LanguageStats(cloned.value), Some(gitUrl), Ready))
    {
      var _ := CreateRepositoryDirectory(id);
      if cloned.None? {
        return Err(Foreign("git"));
      }
      MapUpdateAfterDirectory(old(repos), id, cloned.value);
      repos := repos[id := cloned.value];
      var info := AnalyzeRepository(RepoDirName(id), repos[id]);
      r := Ok(IngestReport(info.fileCount, info.languageStats, Some(gitUrl), Ready));
    }

    /** `upload_zip_repository`; `extracted` is the tree `extractall` leaves, or
        None when the archive cannot be read. The archive is removed from the
        temporary directory whatever happens. */
    method UploadZipRepository(filePath: string, id: string, extracted: Option<seq<FileRecord>>)
      returns (r: Result<IngestReport, Failure>)
      modifies this`repos, this`temp
      ensures temp == old(temp) - {filePath}
      ensures r.Ok? <==> filePath in old(temp) && extracted.Some?
      ensures r.Err? ==> repos == WithDirectory(old(repos), id)
      ensures filePath !in old(temp) ==> r == Err(FileMissing(NoSuchFile(filePath)))
      ensures filePath in old(temp) && extracted.None? ==> r == Err(Foreign("zipfile"))
      ensures r.Ok? ==> repos == old(repos)[id := extracted.value]
      ensures r.Ok? ==> r.value == IngestReport(|extracted.value|, LanguageStats(extracted.value), None, Ready)
    {
      var _ := CreateRepositoryDirectory(id);
      if filePath !in temp {
        r := Err(FileMissing(NoSuchFile(filePath)));
      } else if extracted.None? {
        r := Err(Foreign("zipfile"));
      } else {
        MapUpdateAfterDirectory(old(repos), id, extracted.value);
        repos := repos[id := extracted.value];
        var info := AnalyzeRepository(RepoDirName(id), repos[id]);
        r := Ok(IngestReport(info.fileCount, info.languageStats, None, Ready));
      }
      // finally: remove the uploaded archive if it is still there
      if filePath in temp {
        temp := temp - {filePath};
      }
    }

    /** `get_repository_files`. */
    method GetRepositoryFiles(id: string, fileFilter: Option<string>) returns (r: Result<seq<FileEntry>, Failure>)
      ensures id !in repos ==> r == Err(FileMissing("Repository " + id + " not found"))
      ensures id in repos ==> r == Ok(Listing(repos[id], fileFilter))
    {
      if id !in repos {
        return Err(FileMissing("Repository " + id + " not found"));
      }
      var files := repos[id];
      var filesInfo: seq<FileEntry> := [];
      for i := 0 to |files|
        invariant filesInfo == Listing(files[..i], fileFilter)
      {
        var f := files[i];
        assert files[..i + 1] == files[..i] + [f];
        if !(fileFilter.Some? && fileFilter.value != "" && !EndsWith(f.name, "." + fileFilter.value)) {
          var extension := Extension(f.name);
          extension := if extension != "" then extension[1..] else "";
          filesInfo := filesInfo + [FileEntry(RelPath(f), f.name, f.size, extension)];
        }
      }
      assert files[..|files|] == files;
      r := Ok(filesInfo);
    }

    /** `delete_repository`: true, and the tree gone, exactly when it existed. */
    method DeleteRepository(id: string) returns (ok: bool)
      modifies this`repos
      ensures ok == (id in old(repos))
      ensures repos == old(repos) - {id}
    {
      if id in repos {
        repos := repos - {id};
        ok := true;
      } else {
        ok := false;
      }
    }
  }
}
