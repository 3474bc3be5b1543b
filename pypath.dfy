/**
 * The parts of Python's `os.path` and `pathlib` (POSIX flavour) that the
 * services rely on: `os.path.splitext`, the `/` operator of `pathlib.Path`,
 * and `Resolve`, a lexical reading of "..". It agrees with the operating
 * system when each directory it steps out of exists, as the audio directory
 * does; file reads follow ".." on disk instead.
 */
module PyPath {
  import opened Wrappers
  import opened Strings

  /** `os.path.splitext(p)`: the extension starts at the last '.' of the last
      component, unless everything before that '.' in the component is dots. */
  function SplitExt(p: string): (r: (string, string))
    ensures r.0 + r.1 == p
    ensures r.1 != "" ==> r.1[0] == '.'
    ensures forall j :: 1 <= j < |r.1| ==> r.1[j] != '.' && r.1[j] != '/'
    ensures r.1 != "" <==> RFind(p, '/') < RFind(p, '.') && HasStem(p, RFind(p, '/') + 1, RFind(p, '.'))
  {
    var sep := RFind(p, '/');
    var dot := RFind(p, '.');
    if sep < dot && HasStem(p, sep + 1, dot) then
      assert forall j :: dot < j < |p| ==> p[j] == p[dot..][j - dot];
      (p[..dot], p[dot..])
    else (p, "")
  }

  /** Some character of `p[lo..hi]` is not a dot. */
  predicate HasStem(p: string, lo: int, hi: int)
    requires 0 <= lo <= |p| && hi <= |p|
  {
    exists j :: lo <= j < hi && p[j] != '.'
  }

  /** `os.path.splitext(p)[1]`. */
  function Extension(p: string): string
  {
    SplitExt(p).1
  }

  /** splitext only looks at the last component: joining a directory in front
      of a file name does not change its extension. */
  lemma ExtensionOfChild(dir: string, name: string)
    requires '/' !in name
    ensures Extension(dir + "/" + name) == Extension(name)
  {
    var a := dir + "/";
    assert a + name == dir + "/" + name;
    SeparatorOfChild(dir, name);
    RFindConcat(a, name, '.');
    if '.' in name {
      ExtensionOfChildDotted(a, name);
    } else {
      var p := a + name;
      var dot := RFind(p, '.');
      assert dot == RFind(a, '.');
      assert a[|dir|] == '/';
      assert dot < |dir|;
    }
  }

  lemma SeparatorOfChild(dir: string, name: string)
    requires '/' !in name
    ensures RFind(dir + "/" + name, '/') == |dir|
  {
    var a := dir + "/";
    assert a + name == dir + "/" + name;
    RFindConcat(dir, "/", '/');
    RFindConcat(a, name, '/');
  }

  lemma ExtensionOfChildDotted(a: string, name: string)
    requires |a| > 0 && a[|a| - 1] == '/'
    requires '/' !in name && '.' in name
    requires RFind(a + name, '/') == |a| - 1
    ensures Extension(a + name) == Extension(name)
  {
    var p := a + name;
    RFindConcat(a, name, '.');
    var dn := RFind(name, '.');
    assert RFind(p, '.') == |a| + dn;
    assert RFind(name, '/') == -1;
    StemShift(a, name, dn);
    if HasStem(name, 0, dn) {
      assert p[|a| + dn..] == name[dn..];
    }
  }

  /** Whether a stem exists does not change when a prefix is put in front. */
  lemma StemShift(a: string, name: string, k: int)
    requires 0 <= k <= |name|
    ensures HasStem(a + name, |a|, |a| + k) <==> HasStem(name, 0, k)
  {
    var p := a + name;
    if HasStem(name, 0, k) {
      var j :| 0 <= j < k && name[j] != '.';
      assert p[|a| + j] == name[j];
    }
    if HasStem(p, |a|, |a| + k) {
      var j :| |a| <= j < |a| + k && p[j] != '.';
      assert name[j - |a|] == p[j];
    }
  }

  /** A stem with some non-dot character, a dot and a dot-free suffix: the
      extension is the dot and the suffix. */
  lemma ExtensionAppended(stem: string, ext: string)
    requires '/' !in stem && '/' !in ext && '.' !in ext
    requires HasStem(stem, 0, |stem|)
    ensures Extension(stem + "." + ext) == "." + ext
  {
    var a := stem + ".";
    var p := a + ext;
    assert p == stem + "." + ext;
    RFindConcat(stem, ".", '.');
    RFindConcat(a, ext, '.');
    assert RFind(p, '.') == |stem|;
    RFindConcat(stem, ".", '/');
    RFindConcat(a, ext, '/');
    assert RFind(p, '/') == -1;
    var j :| 0 <= j < |stem| && stem[j] != '.';
    assert p[j] == stem[j];
    assert HasStem(p, 0, |stem|);
    assert p[|stem|..] == "." + ext;
  }

  /** Lower-casing leaves '.' and '/' where they are. */
  lemma RFindLower(p: string, c: char)
    requires c == '.' || c == '/'
    ensures RFind(Lower(p), c) == RFind(p, c)
  {
    var lp := Lower(p);
    assert forall j :: 0 <= j < |p| ==> (lp[j] == c <==> p[j] == c);
    var i, k := RFind(lp, c), RFind(p, c);
    if c in p {
      assert lp[k] == c;
    }
    if c in lp {
      assert p[i] == c;
    }
  }

  /** `os.path.splitext(p)[1].lower()` is the extension of the lower-cased name. */
  lemma ExtensionLower(p: string)
    ensures Extension(Lower(p)) == Lower(Extension(p))
  {
    var lp := Lower(p);
    RFindLower(p, '/');
    RFindLower(p, '.');
    var sep, dot := RFind(p, '/'), RFind(p, '.');
    if sep < dot {
      assert forall j :: 0 <= j < |p| ==> (lp[j] != '.' <==> p[j] != '.');
      if HasStem(p, sep + 1, dot) {
        var j :| sep + 1 <= j < dot && p[j] != '.';
        assert lp[j] != '.';
      }
      if HasStem(lp, sep + 1, dot) {
        var j :| sep + 1 <= j < dot && lp[j] != '.';
        assert p[j] != '.';
      }
      assert lp[dot..] == Lower(p[dot..]);
    }
  }

  /** A path as `pathlib.PurePosixPath` holds it. */
  datatype FsPath = FsPath(absolute: bool, segments: seq<string>)

  /** A path segment that names an entry of a directory by itself. */
  predicate Plain(seg: string)
  {
    seg != "" && seg != "." && seg != ".." && '/' !in seg
  }

  /** A segment pathlib keeps: neither empty nor "." (".." is kept). */
  predicate Kept(seg: string)
  {
    seg != "" && seg != "." && '/' !in seg
  }

  /** The segments pathlib keeps from a relative path string: empty and "."
      pieces are dropped, ".." is kept as it is. */
  function Parts(s: string): (r: seq<string>)
    ensures forall i :: 0 <= i < |r| ==> Kept(r[i])
  {
    Significant(Split(s))
  }

  function Significant(pieces: seq<string>): (r: seq<string>)
    requires forall i :: 0 <= i < |pieces| ==> '/' !in pieces[i]
    ensures forall i :: 0 <= i < |r| ==> Kept(r[i])
    ensures (forall i :: 0 <= i < |pieces| ==> Kept(pieces[i])) ==> r == pieces
  {
    if |pieces| == 0 then []
    else
      var rest := Significant(pieces[1..]);
      if pieces[0] == "" || pieces[0] == "." then rest else [pieces[0]] + rest
  }

  /** `base / name`: an absolute `name` replaces `base`; otherwise its segments
      are appended, ".." included, with no check of where they lead. */
  function Child(base: FsPath, name: string): (r: FsPath)
    ensures |name| > 0 && name[0] == '/' ==> r.absolute && r.segments == Parts(name)
    ensures (|name| == 0 || name[0] != '/') ==> r == FsPath(base.absolute, base.segments + Parts(name))
  {
    if |name| > 0 && name[0] == '/' then FsPath(true, Parts(name))
    else FsPath(base.absolute, base.segments + Parts(name))
  }

  /** Joining kept segments with '/' and parsing the result gives the segments back. */
  lemma PartsOfJoin(segs: seq<string>)
    requires |segs| >= 1
    requires forall i :: 0 <= i < |segs| ==> Kept(segs[i])
    ensures Parts(Join(segs, "/")) == segs
  {
    SplitJoin(segs);
  }

  /** An absolute path string written with '/' parses into the segments it was
      written from. */
  lemma AbsoluteParts(segs: seq<string>)
    requires |segs| >= 1
    requires forall i :: 0 <= i < |segs| ==> Kept(segs[i])
    ensures Parts("/" + Join(segs, "/")) == segs
  {
    SplitJoin(segs);
    SplitLeadingSlash(Join(segs, "/"));
    var pieces := [""] + segs;
    assert pieces[1..] == segs;
    assert Significant(pieces) == Significant(segs);
  }

  /** The lexical reading of ".." from the directory `stack`: each ".." drops
      the last segment; a ".." with nothing left to drop leaves the tree (None). */
  function Resolve(stack: seq<string>, segs: seq<string>): Option<seq<string>>
    decreases |segs|
  {
    if |segs| == 0 then Some(stack)
    else if segs[0] == ".." then
      if |stack| == 0 then None else Resolve(stack[..|stack| - 1], segs[1..])
    else Resolve(stack + [segs[0]], segs[1..])
  }
}
