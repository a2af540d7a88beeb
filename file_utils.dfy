/**
 * The POSIX branches of the path-string helpers: extension, file and
 * directory names, joining, absolute paths and the component walk of the
 * recursive directory creation.
 */
module FileUtils {
  import opened Wrappers
  import opened StringUtils

  /** std::string::find_last_of(c): the last position holding c, if any. */
  function LastIndexOf(s: string, c: char): (r: Option<nat>)
    ensures r.None? <==> c !in s
    ensures r.Some? ==> r.value < |s| && s[r.value] == c && c !in s[r.value + 1..]
  {
    if s == [] then None
    else if s[|s| - 1] == c then
      assert s[|s|..] == [];
      Some(|s| - 1)
    else
      var r := LastIndexOf(s[..|s| - 1], c);
      if r.Some? then
        assert s[r.value + 1..] == s[..|s| - 1][r.value + 1..] + [s[|s| - 1]];
        r
      else
        assert s == s[..|s| - 1] + [s[|s| - 1]];
        r
  }

  /** A c at k with none after it is the last one. */
  lemma LastIndexAt(s: string, c: char, k: nat)
    requires k < |s| && s[k] == c && c !in s[k + 1..]
    ensures LastIndexOf(s, c) == Some(k)
  {
  }

  /** ToLower works character by character. */
  lemma {:induction false} LowerAt(s: string, i: nat)
    requires i < |s|
    ensures ToLower(s)[i] == LowerChar(s[i])
  {
    if i > 0 {
      LowerAt(s[1..], i - 1);
    }
  }

  /** The lower-cased text after the last '.', or "" when there is none. */
  function GetFileExtension(filepath: string): (r: string)
    ensures '.' !in filepath ==> r == ""
    ensures '.' !in r
  {
    if filepath == [] then ""
    else match LastIndexOf(filepath, '.')
      case None => ""
      case Some(lastDot) =>
        var r := ToLower(filepath[lastDot + 1..]);
        assert forall i :: 0 <= i < |r| ==> r[i] != '.' by {
          forall i | 0 <= i < |r|
            ensures r[i] != '.'
          {
            LowerAt(filepath[lastDot + 1..], i);
            assert filepath[lastDot + 1..][i] in filepath[lastDot + 1..];
          }
        }
        r
  }

  /** A name, a dot, and a dot-free extension: the extension comes back lower-cased. */
  lemma ExtensionOf(base: string, ext: string)
    requires '.' !in ext
    ensures GetFileExtension(base + "." + ext) == ToLower(ext)
  {
    var p := base + "." + ext;
    assert p[|base|] == '.';
    assert p[|base| + 1..] == ext;
    LastIndexAt(p, '.', |base|);
  }

  /** The last dot may sit in a directory name: the "extension" then holds the rest of the path. */
  lemma DottedDirectoryExtension()
    ensures GetFileExtension("a.d/file") == "d/file"
  {
    var p := "a.d/file";
    assert p[1] == '.' && p[2..] == "d/file";
    assert '.' !in p[2..];
    LastIndexAt(p, '.', 1);
    LowerOfPlain("d/file");
  }

  lemma {:induction false} LowerOfPlain(s: string)
    requires forall i :: 0 <= i < |s| ==> !IsUpper(s[i])
    ensures ToLower(s) == s
  {
    if s != [] { LowerOfPlain(s[1..]); }
  }

  /** The text after the last '/', or the whole path when it has none. */
  function GetFileName(filepath: string): (r: string)
    ensures '/' !in filepath ==> r == filepath
    ensures '/' !in r
    ensures |r| <= |filepath| && filepath[|filepath| - |r|..] == r
  {
    if filepath == [] then ""
    else match LastIndexOf(filepath, '/')
      case None => filepath
      case Some(lastSlash) => filepath[lastSlash + 1..]
  }

  /** The text before the last '/', or "" when there is none. */
  function GetDirectoryName(filepath: string): (r: string)
    ensures '/' !in filepath ==> r == ""
    ensures |r| < |filepath| || filepath == []
    ensures filepath[..|r|] == r
  {
    if filepath == [] then ""
    else match LastIndexOf(filepath, '/')
      case None => ""
      case Some(lastSlash) => filepath[..lastSlash]
  }

  /** A path with a '/' is its directory, a '/', and its file name. */
  lemma DirectoryAndName(p: string)
    requires '/' in p
    ensures GetDirectoryName(p) + "/" + GetFileName(p) == p
  {
    var k := LastIndexOf(p, '/').value;
    assert p == p[..k] + "/" + p[k + 1..];
  }

  /** Splitting a joined path gives its parts back, when the name has no '/'. */
  lemma NameAndDirectoryOfJoined(dir: string, name: string)
    requires '/' !in name
    ensures GetFileName(dir + "/" + name) == name
    ensures GetDirectoryName(dir + "/" + name) == dir
  {
    var p := dir + "/" + name;
    assert p[|dir|] == '/';
    assert p[|dir| + 1..] == name;
    assert p[..|dir|] == dir;
    LastIndexAt(p, '/', |dir|);
  }

  /**
   * CombinePath: an empty side gives the other; otherwise one '/' joins
   * them, not doubling a trailing '/' of path1 and dropping one leading
   * '/' of path2.
   */
  function CombinePath(path1: string, path2: string): (r: string)
    ensures path1 == [] ==> r == path2
    ensures path1 != [] && path2 == [] ==> r == path1
    ensures path1 != [] ==> |path1| <= |r| && r[..|path1|] == path1
  {
    if path1 == [] then path2
    else if path2 == [] then path1
    else
      var base := if path1[|path1| - 1] != '/' then path1 + "/" else path1;
      base + (if path2[0] == '/' then path2[1..] else path2)
  }

  /** path1 without one trailing '/'. */
  function WithoutTrailingSlash(p: string): string
  {
    if p != [] && p[|p| - 1] == '/' then p[..|p| - 1] else p
  }

  /**
   * Combining a directory with a plain name puts exactly one '/' between
   * them: the name reads back whole, and the directory without its
   * trailing '/'.
   */
  lemma CombineThenSplit(path1: string, name: string)
    requires path1 != [] && name != [] && '/' !in name
    ensures GetFileName(CombinePath(path1, name)) == name
    ensures GetDirectoryName(CombinePath(path1, name)) == WithoutTrailingSlash(path1)
  {
    var dir := WithoutTrailingSlash(path1);
    assert name[0] != '/' by { assert name[0] in name; }
    assert CombinePath(path1, name) == dir + "/" + name;
    NameAndDirectoryOfJoined(dir, name);
  }

  /** A leading '/' of the second path is not doubled. */
  lemma CombineDropsOneSlash(path1: string, rest: string)
    requires path1 != []
    ensures CombinePath(path1, "/" + rest) == CombinePath(path1, "/") + rest
  {
    assert ("/" + rest)[1..] == rest;
    assert "/"[1..] == "";
  }

  predicate IsAbsolutePath(filepath: string)
  {
    filepath != [] && filepath[0] == '/'
  }

  /**
   * GetAbsolutePath, with the result of getcwd as a parameter ("" when it
   * fails): absolute inputs are kept, relative ones are combined with the
   * current directory.
   */
  function GetAbsolutePath(filepath: string, currentDir: string): (r: string)
    ensures filepath == [] ==> r == []
    ensures IsAbsolutePath(filepath) ==> r == filepath
    ensures currentDir == [] ==> r == filepath
  {
    if filepath == [] then ""
    else if IsAbsolutePath(filepath) then filepath
    else if currentDir == [] then filepath
    else CombinePath(currentDir, filepath)
  }

  /** With an absolute current directory every non-empty result is absolute, so a second call changes nothing. */
  lemma AbsolutePathIsAbsolute(filepath: string, currentDir: string)
    requires filepath != [] && IsAbsolutePath(currentDir)
    ensures IsAbsolutePath(GetAbsolutePath(filepath, currentDir))
    ensures GetAbsolutePath(GetAbsolutePath(filepath, currentDir), currentDir) == GetAbsolutePath(filepath, currentDir)
  {
    if !IsAbsolutePath(filepath) {
      assert CombinePath(currentDir, filepath)[0] == currentDir[0];
    }
  }

  // ---------------------------------------------------------------
  // CreateDirectoryRecursive.
  // ---------------------------------------------------------------

  /** The separator-delimited components the find/erase loop pushes. */
  method SplitComponents(dirpath: string) returns (components: seq<string>)
    ensures components == Pieces(dirpath, '/')
  {
    components := [];
    var path := dirpath;
    while IndexOf(path, '/') < |path|
      invariant components + Pieces(path, '/') == Pieces(dirpath, '/')
      decreases |path|
    {
      var pos := IndexOf(path, '/');
      assert Pieces(path, '/') == [path[..pos]] + Pieces(path[pos + 1..], '/');
      Regroup3(components, [path[..pos]], Pieces(path[pos + 1..], '/'));
      components := components + [path[..pos]];
      path := path[pos + 1..];
    }
    if path != [] {
      components := components + [path];
    }
  }

  /** The components that are not empty. */
  function NonEmpty(components: seq<string>): (r: seq<string>)
    ensures forall k :: 0 <= k < |r| ==> r[k] != [] && r[k] in components
  {
    if components == [] then []
    else if components[0] == [] then NonEmpty(components[1..])
    else [components[0]] + NonEmpty(components[1..])
  }

  /** full_path after one more component. */
  function Extend(full: string, component: string): string
  {
    if full == [] then component else full + "/" + component
  }

  /** The full_path values the creation loop checks, one per non-empty component, from full on. */
  function PathsFrom(components: seq<string>, full: string): seq<string>
  {
    if components == [] then []
    else if components[0] == [] then PathsFrom(components[1..], full)
    else
      var next := Extend(full, components[0]);
      [next] + PathsFrom(components[1..], next)
  }

  /** The directories CreateDirectoryRecursive checks and creates, in order. */
  function DirectoryPaths(dirpath: string): seq<string>
  {
    PathsFrom(Pieces(dirpath, '/'), "")
  }

  /**
   * Each path built extends the one before by a '/' and the next
   * non-empty component; the first is that component alone.
   */
  lemma {:induction false} PathsFromShape(components: seq<string>, full: string)
    ensures |PathsFrom(components, full)| == |NonEmpty(components)|
    ensures PathsFrom(components, full) != [] ==>
      PathsFrom(components, full)[0] == Extend(full, NonEmpty(components)[0])
    ensures forall k :: 0 < k < |PathsFrom(components, full)| ==>
      PathsFrom(components, full)[k] == Extend(PathsFrom(components, full)[k - 1], NonEmpty(components)[k])
  {
    if components != [] {
      var rest := components[1..];
      if components[0] != [] {
        var next := Extend(full, components[0]);
        PathsFromShape(rest, next);
        var tail := PathsFrom(rest, next);
        var paths := [next] + tail;
        assert PathsFrom(components, full) == paths;
        assert NonEmpty(components) == [components[0]] + NonEmpty(rest);
        forall k | 0 < k < |paths|
          ensures paths[k] == Extend(paths[k - 1], NonEmpty(components)[k])
        {
          assert paths[k] == tail[k - 1];
          assert NonEmpty(components)[k] == NonEmpty(rest)[k - 1];
        }
      } else {
        PathsFromShape(rest, full);
        assert PathsFrom(components, full) == PathsFrom(rest, full);
        assert NonEmpty(components) == NonEmpty(rest);
      }
    }
  }

  /** In the paths built from "", each after the first is the previous, '/', and the next component. */
  lemma DirectoryPathsExtend(dirpath: string, k: nat)
    requires 0 < k < |DirectoryPaths(dirpath)|
    ensures |DirectoryPaths(dirpath)| == |NonEmpty(Pieces(dirpath, '/'))|
    ensures DirectoryPaths(dirpath)[k]
      == DirectoryPaths(dirpath)[k - 1] + "/" + NonEmpty(Pieces(dirpath, '/'))[k]
    ensures DirectoryPaths(dirpath)[0] == NonEmpty(Pieces(dirpath, '/'))[0]
  {
    var cs := Pieces(dirpath, '/');
    PathsFromShape(cs, "");
    NonEmptyPathsAreFull(cs, "", k - 1);
  }

  /** No path built from a start is empty. */
  lemma {:induction false} NonEmptyPathsAreFull(components: seq<string>, full: string, k: nat)
    requires k < |PathsFrom(components, full)|
    ensures PathsFrom(components, full)[k] != []
  {
    if components[0] == [] {
      NonEmptyPathsAreFull(components[1..], full, k);
    } else if k > 0 {
      NonEmptyPathsAreFull(components[1..], Extend(full, components[0]), k - 1);
    }
  }

  /**
   * The leading '/' of an absolute path is split off as an empty component
   * and then skipped, so the directories are created relative to the
   * current directory.
   */
  lemma AbsolutePathLosesRoot()
    ensures DirectoryPaths("/tmp/x") == ["tmp", "tmp/x"]
    ensures !IsAbsolutePath(DirectoryPaths("/tmp/x")[0])
  {
    var cs := RootedPieces();
    assert cs[1..] == ["tmp", "x"];
    NamePaths();
  }

  /** The walk over the names of "/tmp/x", after the empty first piece is skipped. */
  lemma NamePaths()
    ensures PathsFrom(["", "tmp", "x"], "") == ["tmp", "tmp/x"]
  {
    var names: seq<string> := ["tmp", "x"];
    assert ["", "tmp", "x"][1..] == names;
    assert names[1..] == ["x"];
    LastNamePath();
  }

  lemma LastNamePath()
    ensures PathsFrom(["x"], "tmp") == ["tmp/x"]
  {
    var last: seq<string> := ["x"];
    assert last[1..] == [];
    assert Extend("tmp", "x") == "tmp/x";
  }

  /** The pieces of "/tmp/x": an empty one before the root separator, then the names. */
  lemma RootedPieces() returns (cs: seq<string>)
    ensures cs == Pieces("/tmp/x", '/') && cs == ["", "tmp", "x"]
  {
    var p := "/tmp/x";
    assert p[..0] == "" && p[1..] == "tmp/x";
    PiecesAt(p, '/', 0);
    NamePieces();
    cs := Pieces(p, '/');
  }

  lemma NamePieces()
    ensures Pieces("tmp/x", '/') == ["tmp", "x"]
  {
    var q := "tmp/x";
    assert q[..3] == "tmp" && q[4..] == "x";
    PiecesAt(q, '/', 3);
    PiecesNone("x", '/');
  }

  /** No directory the walk builds is absolute, whatever the path: pieces hold no '/'. */
  lemma {:induction false} PathsFromRelative(components: seq<string>, full: string, k: nat)
    requires forall i :: 0 <= i < |components| ==> '/' !in components[i]
    requires !IsAbsolutePath(full)
    requires k < |PathsFrom(components, full)|
    ensures !IsAbsolutePath(PathsFrom(components, full)[k])
  {
    var rest := components[1..];
    if components[0] == [] {
      PathsFromRelative(rest, full, k);
    } else {
      var next := Extend(full, components[0]);
      assert components[0][0] in components[0];
      assert !IsAbsolutePath(next);
      if k > 0 {
        PathsFromRelative(rest, next, k - 1);
      }
    }
  }

  /** Even for an absolute path, every directory created is relative to the current directory. */
  lemma AbsoluteInputRelativeDirectories(dirpath: string, k: nat)
    requires k < |DirectoryPaths(dirpath)|
    ensures !IsAbsolutePath(DirectoryPaths(dirpath)[k])
  {
    PathsFromRelative(Pieces(dirpath, '/'), "", k);
  }

  /** The corrected walk: an absolute path keeps its root in front of every directory built. */
  function RootedPaths(dirpath: string): (r: seq<string>)
    ensures |r| == |DirectoryPaths(dirpath)|
  {
    var paths := DirectoryPaths(dirpath);
    if IsAbsolutePath(dirpath) then seq(|paths|, k requires 0 <= k < |paths| => "/" + paths[k])
    else paths
  }

  /** With the root kept, every directory of an absolute path is absolute. */
  lemma RootedPathsStayAbsolute(dirpath: string, k: nat)
    requires IsAbsolutePath(dirpath) && k < |RootedPaths(dirpath)|
    ensures IsAbsolutePath(RootedPaths(dirpath)[k])
    ensures RootedPaths(dirpath)[k] == "/" + DirectoryPaths(dirpath)[k]
  {
  }

  /** Directory names as a path spells them: none empty, none holding a separator. */
  predicate ProperNames(names: seq<string>)
  {
    forall i :: 0 <= i < |names| ==> names[i] != [] && '/' !in names[i]
  }

  /** Splitting names joined by '/' gives the names back. */
  lemma {:induction false} PiecesOfJoin(names: seq<string>)
    requires names != [] && ProperNames(names)
    ensures Pieces(Join(names, '/'), '/') == names
  {
    if |names| == 1 {
      PiecesNone(names[0], '/');
    } else {
      var s := Join(names, '/');
      var n := names[0];
      assert s == n + "/" + Join(names[1..], '/');
      assert s[..|n|] == n && s[|n| + 1..] == Join(names[1..], '/');
      PiecesAt(s, '/', |n|);
      PiecesOfJoin(names[1..]);
    }
  }

  /** Joining splits at any inner name boundary. */
  lemma {:induction false} JoinSplit(names: seq<string>, m: nat)
    requires 0 < m < |names|
    ensures Join(names, '/') == Join(names[..m], '/') + "/" + Join(names[m..], '/')
  {
    if m == 1 {
      assert names[..1] == [names[0]] && names[1..] == names[m..];
    } else {
      var rest := names[1..];
      JoinSplit(rest, m - 1);
      assert names[..m][1..] == rest[..m - 1] && rest[m - 1..] == names[m..];
    }
  }

  lemma {:induction false} PathsOfNamesLength(names: seq<string>, full: string)
    requires ProperNames(names)
    ensures |PathsFrom(names, full)| == |names|
  {
    if names != [] {
      PathsOfNamesLength(names[1..], Extend(full, names[0]));
    }
  }

  /** From proper names, the k-th path built is full extended by the first k + 1 names. */
  lemma {:induction false} PathsOfNames(names: seq<string>, full: string, k: nat)
    requires ProperNames(names) && k < |names|
    ensures k < |PathsFrom(names, full)|
    ensures PathsFrom(names, full)[k] == Extend(full, Join(names[..k + 1], '/'))
  {
    PathsOfNamesLength(names, full);
    var next := Extend(full, names[0]);
    assert PathsFrom(names, full) == [next] + PathsFrom(names[1..], next);
    if k == 0 {
      assert names[..1] == [names[0]];
    } else {
      PathsOfNames(names[1..], next, k - 1);
      assert names[..k + 1][1..] == names[1..][..k];
    }
  }

  /** Under the root, the walk over /n1/.../nm is the walk over the names. */
  lemma RootedWalk(names: seq<string>)
    requires names != [] && ProperNames(names)
    ensures DirectoryPaths("/" + Join(names, '/')) == PathsFrom(names, "")
  {
    var d := "/" + Join(names, '/');
    assert d[..0] == "" && d[1..] == Join(names, '/');
    PiecesAt(d, '/', 0);
    PiecesOfJoin(names);
    assert ([""] + names)[1..] == names;
  }

  /**
   * For an absolute path without empty components, /n1/n2/.../nm, the
   * corrected walk builds /n1, /n1/n2, ... in turn: each is a prefix of
   * the path, and the last is the path itself.
   */
  lemma RootedPathsArePrefixes(names: seq<string>, k: nat)
    requires names != [] && ProperNames(names) && k < |names|
    ensures |RootedPaths("/" + Join(names, '/'))| == |names|
    ensures RootedPaths("/" + Join(names, '/'))[k] == "/" + Join(names[..k + 1], '/')
    ensures RootedPaths("/" + Join(names, '/'))[k] <= "/" + Join(names, '/')
    ensures RootedPaths("/" + Join(names, '/'))[|names| - 1] == "/" + Join(names, '/')
  {
    var d := "/" + Join(names, '/');
    RootedWalk(names);
    PathsOfNamesLength(names, "");
    PathsOfNames(names, "", k);
    PathsOfNames(names, "", |names| - 1);
    assert IsAbsolutePath(d);
    var r := RootedPaths(d);
    assert r[k] == "/" + PathsFrom(names, "")[k];
    assert names[..|names|] == names;
    if k + 1 < |names| {
      JoinSplit(names, k + 1);
    }
  }

  lemma RootedExample()
    ensures RootedPaths("/tmp/x") == ["/tmp", "/tmp/x"]
  {
    AbsolutePathLosesRoot();
    var paths := DirectoryPaths("/tmp/x");
    var r := RootedPaths("/tmp/x");
    assert IsAbsolutePath("/tmp/x");
    assert |r| == 2;
    assert r[0] == "/" + paths[0] == "/tmp";
    assert r[1] == "/" + paths[1] == "/tmp/x";
  }

  /**
   * The directories created along paths: in order, those missing from
   * existing, up to the first missing one that is refused.
   */
  function CreatedAlong(paths: seq<string>, existing: set<string>, refused: set<string>): (r: seq<string>)
    ensures forall p :: p in r ==> p in paths && p !in existing && p !in refused
  {
    if paths == [] then []
    else if paths[0] in existing then CreatedAlong(paths[1..], existing, refused)
    else if paths[0] in refused then []
    else [paths[0]] + CreatedAlong(paths[1..], existing, refused)
  }

  /**
   * CreateDirectoryRecursive on a model of the file system: existing holds
   * the directories DirectoryExists finds, refused those whose mkdir fails.
   * Every path built is created unless it exists; the first refused one
   * stops the walk.
   */
  method CreateDirectoryRecursive(dirpath: string, existing: set<string>, refused: set<string>)
    returns (ok: bool, created: seq<string>)
    ensures dirpath == [] ==> !ok && created == []
    ensures forall p :: p in created ==> p in DirectoryPaths(dirpath) && p !in existing && p !in refused
    ensures ok ==> forall p :: p in DirectoryPaths(dirpath) ==> p in existing || p in created
    ensures ok <==> dirpath != [] && forall p :: p in DirectoryPaths(dirpath) ==> p in existing || p !in refused
    ensures dirpath != [] ==> created == CreatedAlong(DirectoryPaths(dirpath), existing, refused)
  {
    created := [];
    if dirpath == [] {
      return false, created;
    }
    var components := SplitComponents(dirpath);
    var fullPath := "";
    ghost var done: seq<string> := [];
    var i := 0;
    while i < |components|
      invariant i <= |components|
      invariant done + PathsFrom(components[i..], fullPath) == DirectoryPaths(dirpath)
      invariant forall p :: p in created ==> p in done && p !in existing && p !in refused
      invariant forall p :: p in done ==> p in existing || p in created
      invariant created + CreatedAlong(PathsFrom(components[i..], fullPath), existing, refused)
        == CreatedAlong(DirectoryPaths(dirpath), existing, refused)
    {
      var component := components[i];
      assert components[i..][1..] == components[i + 1..];
      if component == [] {
        i := i + 1;
        continue;
      }
      ghost var rest := PathsFrom(components[i + 1..], Extend(fullPath, component));
      assert PathsFrom(components[i..], fullPath) == [Extend(fullPath, component)] + rest;
      assert ([Extend(fullPath, component)] + rest)[1..] == rest;
      fullPath := Extend(fullPath, component);
      Regroup3(done, [fullPath], PathsFrom(components[i + 1..], fullPath));
      done := done + [fullPath];
      if fullPath !in existing {
        if fullPath in refused {
          assert fullPath in DirectoryPaths(dirpath);
          return false, created;
        }
        Regroup3(created, [fullPath], CreatedAlong(rest, existing, refused));
        created := created + [fullPath];
      }
      i := i + 1;
    }
    assert components[i..] == [];
    return true, created;
  }
}
