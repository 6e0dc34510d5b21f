/** `Client_Resolve_FilePath`: the path scan that makes the hierarchy and the file. */
module Resolver {
  import opened PathMapping
  import opened Transfer

  // ---------------------------------------------------------------- the output tree

  /** What `stat` tells: there is something, there is nothing (`ENOENT`), or a regular file stands
      where the path needs a directory (`ENOTDIR`). */
  datatype Status = Found | NoEntry | NotDirectory

  /** A regular file stands where the path needs a directory. */
  predicate InTheWay(contents: map<string, string>, path: string) {
    exists o | o in contents :: o + "/" <= path
  }

  /** Every file lies below the output directory, and no file path ends in a slash. */
  ghost predicate Rooted(fs: Files, outDir: string) {
    forall o | o in fs.contents :: outDir + "/" < o && o[|o| - 1] != '/'
  }

  /** The client's file system below its output directory. */
  class OutputTree {
    var dirs: set<string>
    var contents: map<string, string>

    constructor (outDir: string)
      ensures Value() == Fresh(outDir)
    {
      dirs, contents := {outDir + "/"}, map[];
    }

    ghost function Value(): Files
      reads this
    {
      Files(dirs, contents)
    }

    /** A file, or a directory with or without its slash. */
    predicate Exists(path: string)
      reads this
    {
      path in contents || (if path != "" && path[|path| - 1] == '/' then path in dirs else path + "/" in dirs)
    }

    method Stat(path: string) returns (status: Status)
      ensures status == if InTheWay(contents, path) then NotDirectory else if Exists(path) then Found else NoEntry
    {
      status := if InTheWay(contents, path) then NotDirectory else if Exists(path) then Found else NoEntry;
    }

    /** The directory a path would be created in exists. */
    ghost predicate HasParent(path: string)
      reads this
    {
      path != "" && exists d :: d in dirs && d < path && '/' !in path[|d|..|path| - 1]
    }

    /** `mkdir`, which needs the parent directory and nothing at the path or in its way. */
    method MakeDirectory(path: string)
      requires HasParent(path) && !InTheWay(contents, path) && !Exists(path)
      modifies this`dirs
      ensures dirs == old(dirs) + {path}
    {
      dirs := dirs + {path};
    }

    /** `unlink`, which does not delete directories. */
    method Unlink(path: string) returns (deleted: bool)
      modifies this`contents
      ensures deleted <==> path in old(contents) && path + "/" !in dirs
      ensures contents == if deleted then old(contents) - {path} else old(contents)
    {
      deleted := path in contents && path + "/" !in dirs;
      if deleted {
        contents := contents - {path};
      }
    }

    /** `open` with `O_CREAT` where there is no such file yet. It fails when a file is in the way or
        when there is a directory of that name. */
    method Create(path: string) returns (file: Descriptor?)
      requires !InTheWay(contents, path) ==> path !in contents && HasParent(path)
      modifies this`contents
      ensures file == null <==> InTheWay(old(contents), path) || path + "/" in dirs
      ensures file == null ==> contents == old(contents)
      ensures file != null ==> contents == old(contents)[path := ""]
      ensures file != null ==> fresh(file) && file.output == "" && file.schedule == []
    {
      if InTheWay(contents, path) || path + "/" in dirs {
        return null;
      }
      contents := contents[path := ""];
      file := new Descriptor("");
    }

    method Close(path: string, file: Descriptor)
      modifies this`contents
      ensures contents == old(contents)[path := file.output]
    {
      contents := contents[path := file.output];
    }
  }

  // ---------------------------------------------------------------- the path scan

  /** `strstr(start, "/")` from a position on. */
  method NextSlash(s: string, start: nat) returns (end: nat)
    requires start < |s|
    ensures start <= end <= |s| && '/' !in s[start..end] && (end < |s| ==> s[end] == '/')
  {
    end := start;
    while end < |s| && s[end] != '/'
      invariant start <= end <= |s| && '/' !in s[start..end]
    {
      end := end + 1;
    }
  }

  /** The directories among the first `n` characters of the suffix. */
  function AncestorsUpTo(outDir: string, suffix: string, n: nat): set<string>
    requires n <= |suffix|
  {
    set k | 0 < k <= n && EndsInSlash(suffix, k) :: outDir + suffix[..k]
  }

  lemma NoSlashBetween(suffix: string, start: nat, end: nat)
    requires start <= end <= |suffix| && '/' !in suffix[start..end]
    ensures forall k | start < k <= end :: !EndsInSlash(suffix, k)
  {
    forall k | start < k <= end
      ensures !EndsInSlash(suffix, k)
    {
      assert suffix[k - 1] == suffix[start..end][k - 1 - start];
    }
  }

  lemma NextAncestor(outDir: string, suffix: string, start: nat, end: nat)
    requires start <= end < |suffix| && '/' !in suffix[start..end] && suffix[end] == '/'
    ensures AncestorsUpTo(outDir, suffix, end + 1)
            == AncestorsUpTo(outDir, suffix, start) + {outDir + suffix[..end + 1]}
  {
    NoSlashBetween(suffix, start, end);
    assert EndsInSlash(suffix, end + 1);
    var more, less := AncestorsUpTo(outDir, suffix, end + 1), AncestorsUpTo(outDir, suffix, start);
    forall d | d in more
      ensures d in less + {outDir + suffix[..end + 1]}
    {
      var k :| 0 < k <= end + 1 && EndsInSlash(suffix, k) && d == outDir + suffix[..k];
      assert k <= start || k == end + 1;
    }
    assert less <= more;
  }

  lemma NoMoreAncestors(outDir: string, suffix: string, start: nat)
    requires start <= |suffix| && '/' !in suffix[start..]
    ensures Ancestors(outDir, suffix) == AncestorsUpTo(outDir, suffix, start)
  {
    assert suffix[start..] == suffix[start..|suffix|];
    NoSlashBetween(suffix, start, |suffix|);
  }

  /** What has been visited after `n` characters: the directories up to there, shortest first. */
  ghost predicate VisitedUpTo(visited: seq<string>, outDir: string, suffix: string, n: nat)
    requires n <= |suffix|
  {
    && (set d | d in visited) == AncestorsUpTo(outDir, suffix, n)
    && (forall d | d in visited :: |d| <= |outDir| + n)
    && (forall i, j | 0 <= i < j < |visited| :: |visited[i]| < |visited[j]|)
  }

  lemma VisitsOneMore(visited: seq<string>, outDir: string, suffix: string, start: nat, end: nat)
    requires start <= end < |suffix| && '/' !in suffix[start..end] && suffix[end] == '/'
    requires VisitedUpTo(visited, outDir, suffix, start)
    ensures VisitedUpTo(visited + [outDir + suffix[..end + 1]], outDir, suffix, end + 1)
  {
    NextAncestor(outDir, suffix, start, end);
    hide AncestorsUpTo;
    var next := outDir + suffix[..end + 1];
    assert (set d | d in visited + [next]) == (set d | d in visited) + {next};
    assert forall i | 0 <= i < |visited| :: visited[i] in visited;
  }

  /** The directories that can be reached past the regular files there are. */
  ghost function Reached(contents: map<string, string>, dirs: set<string>): set<string> {
    set d | d in dirs && !InTheWay(contents, d)
  }

  /** A directory on the way: made if it is not there and no file is in the way. */
  method VisitDirectory(fs: OutputTree, path: string)
    requires path != "" && path[|path| - 1] == '/' && path !in fs.contents
    requires !InTheWay(fs.contents, path) ==> path in fs.dirs || fs.HasParent(path)
    modifies fs`dirs
    ensures fs.dirs == old(fs.dirs) + (if InTheWay(fs.contents, path) then {} else {path})
  {
    var status := fs.Stat(path);
    if status == NoEntry {
      fs.MakeDirectory(path);
    }
  }

  /** The file at the end: an old one is deleted first. `null` stands for the exit when that, or the
      opening, fails. */
  method VisitFile(fs: OutputTree, path: string) returns (file: Descriptor?)
    requires path != "" && path[|path| - 1] != '/'
    requires !InTheWay(fs.contents, path) ==> fs.HasParent(path)
    modifies fs`contents
    ensures file == null <==> InTheWay(old(fs.contents), path) || path + "/" in fs.dirs
    ensures file == null ==> fs.contents == old(fs.contents)
    ensures file != null ==> fs.contents == old(fs.contents)[path := ""]
    ensures file != null ==> fresh(file) && file.output == "" && file.schedule == []
  {
    var status := fs.Stat(path);
    if status == Found {
      var deleted := fs.Unlink(path);
      if !deleted {
        return null;
      }
    }
    WayIsBlockedByOthers(fs.contents, path);
    file := fs.Create(path);
    assert file != null ==> fs.contents == old(fs.contents)[path := ""];
  }

  /** Deleting the file itself does not clear the way to it. */
  lemma WayIsBlockedByOthers(contents: map<string, string>, path: string)
    ensures InTheWay(contents - {path}, path) <==> InTheWay(contents, path)
  {
    forall o | o in contents && o + "/" <= path
      ensures o in contents - {path}
    {
      assert |o| < |path|;
    }
  }

  /** The scan: visits every directory of the suffix, shortest first, makes those that are missing,
      and creates the file at the end. A parent always exists before anything is made in it. There is
      a file to write to exactly when it fits into the tree: with a regular file or a directory in
      the way the client exits at the last component, after a suffix that ends in a slash it goes
      on without a descriptor. */
  method Resolve(fs: OutputTree, outDir: string, suffix: string)
                 returns (copied: string, visited: seq<string>, file: Descriptor?)
    requires suffix != "" && suffix[0] == '/' && outDir + "/" in fs.dirs && Rooted(fs.Value(), outDir)
    modifies fs
    ensures copied == outDir + suffix
    ensures (set d | d in visited) == Ancestors(outDir, suffix)
    ensures forall i, j | 0 <= i < j < |visited| :: |visited[i]| < |visited[j]|
    ensures fs.dirs == old(fs.dirs) + Reached(old(fs.contents), Ancestors(outDir, suffix))
    ensures file != null <==> Fits(old(fs.Value()), outDir, suffix)
    ensures file == null ==> fs.contents == old(fs.contents)
    ensures file != null ==> fs.dirs == old(fs.dirs) + Ancestors(outDir, suffix)
    ensures file != null ==> fresh(file) && file.output == "" && file.schedule == []
    ensures file != null ==> fs.contents == old(fs.contents)[copied := ""]
  {
    hide AncestorsUpTo, Ancestors, VisitedUpTo, OutputTree.HasParent, OutputTree.Exists, EndsInSlash, InTheWay;
    hide Rooted, Fits, Reached;
    copied, visited, file := outDir, [], null;
    var isDirectory, start := true, 0;
    ghost var before := fs.Value();
    NothingAtTheStart(before.contents, outDir, suffix);
    while start < |suffix|
      invariant start <= |suffix| && copied == outDir + suffix[..start]
      invariant start > 0 && isDirectory ==> suffix[start - 1] == '/'
      invariant VisitedUpTo(visited, outDir, suffix, start)
      invariant fs.dirs == before.dirs + Reached(before.contents, AncestorsUpTo(outDir, suffix, start))
      invariant isDirectory ==> file == null && fs.contents == before.contents
      invariant !isDirectory ==> start == |suffix| && suffix[|suffix| - 1] != '/'
      invariant !isDirectory ==> (file == null <==> InTheWay(before.contents, copied) || copied + "/" in fs.dirs)
      invariant !isDirectory && file == null ==> fs.contents == before.contents
      invariant file != null ==> fresh(file) && file.output == "" && file.schedule == []
      invariant file != null ==> fs.contents == before.contents[copied := ""]
      decreases |suffix| - start
    {
      var end := NextSlash(suffix, start);
      if end == |suffix| {
        isDirectory := false;
        end := |suffix| - 1;
      }
      copied := copied + suffix[start..end + 1];
      assert copied == outDir + suffix[..end + 1] by {
        assert suffix[..start] + suffix[start..end + 1] == suffix[..end + 1];
      }
      HasPlace(fs, outDir, suffix, start, end);
      if isDirectory {
        ReachedGrows(before.contents, outDir, suffix, start, end);
        VisitsOneMore(visited, outDir, suffix, start, end);
        DirectoryIsNoFile(before, outDir, suffix, end);
        VisitDirectory(fs, copied);
        visited := visited + [copied];
      } else {
        LastStretch(visited, outDir, suffix, start);
        file := VisitFile(fs, copied);
      }
      start := end + 1;
    }
    assert suffix[..start] == suffix;
    AllAncestors(visited, outDir, suffix);
    FitsWhenReached(before, outDir, suffix);
  }

  lemma NothingAtTheStart(contents: map<string, string>, outDir: string, suffix: string)
    ensures VisitedUpTo([], outDir, suffix, 0) && Reached(contents, AncestorsUpTo(outDir, suffix, 0)) == {}
    ensures outDir + suffix[..0] == outDir
  {
  }

  lemma AllAncestors(visited: seq<string>, outDir: string, suffix: string)
    ensures AncestorsUpTo(outDir, suffix, |suffix|) == Ancestors(outDir, suffix)
    ensures VisitedUpTo(visited, outDir, suffix, |suffix|)
        ==> (set d | d in visited) == Ancestors(outDir, suffix)
            && forall i, j | 0 <= i < j < |visited| :: |visited[i]| < |visited[j]|
  {
  }

  lemma ReachedGrows(contents: map<string, string>, outDir: string, suffix: string, start: nat, end: nat)
    requires start <= end < |suffix| && '/' !in suffix[start..end] && suffix[end] == '/'
    ensures var d := outDir + suffix[..end + 1];
            Reached(contents, AncestorsUpTo(outDir, suffix, end + 1))
            == Reached(contents, AncestorsUpTo(outDir, suffix, start)) + (if InTheWay(contents, d) then {} else {d})
  {
    NextAncestor(outDir, suffix, start, end);
    hide AncestorsUpTo, InTheWay;
  }

  lemma DirectoryIsNoFile(fs: Files, outDir: string, suffix: string, end: nat)
    requires end < |suffix| && suffix[end] == '/' && Rooted(fs, outDir)
    ensures var d := outDir + suffix[..end + 1]; d != "" && d[|d| - 1] == '/' && d !in fs.contents
  {
  }

  /** In a tree below the output directory a file is in the way of the path exactly when it has the
      name of one of the path's directories. */
  lemma InTheWayIff(fs: Files, outDir: string, suffix: string, n: nat)
    requires Rooted(fs, outDir) && n <= |suffix|
    ensures InTheWay(fs.contents, outDir + suffix[..n])
       <==> exists o | o in fs.contents :: o + "/" in AncestorsUpTo(outDir, suffix, n)
  {
    if InTheWay(fs.contents, outDir + suffix[..n]) {
      var o :| o in fs.contents && o + "/" <= outDir + suffix[..n];
      var k := |o| + 1 - |outDir|;
      assert (outDir + suffix[..n])[..|o| + 1] == outDir + suffix[..k];
      assert o + "/" == outDir + suffix[..k];
      assert suffix[k - 1] == (outDir + suffix[..k])[|o|] == '/';
      assert EndsInSlash(suffix, k);
      assert o + "/" in AncestorsUpTo(outDir, suffix, n);
    }
    forall o | o in fs.contents && o + "/" in AncestorsUpTo(outDir, suffix, n)
      ensures o + "/" <= outDir + suffix[..n]
    {
      var k :| 0 < k <= n && EndsInSlash(suffix, k) && o + "/" == outDir + suffix[..k];
      assert outDir + suffix[..n] == outDir + suffix[..k] + suffix[k..n];
    }
  }

  lemma WayGrows(contents: map<string, string>, path: string, more: string)
    requires InTheWay(contents, path) && path <= more
    ensures InTheWay(contents, more)
  {
  }

  /** The file fits exactly when the way to it is free and no directory has its name; then every
      directory on the way is reached. */
  lemma FitsWhenReached(fs: Files, outDir: string, suffix: string)
    requires Rooted(fs, outDir) && suffix != ""
    ensures var out := outDir + suffix;
            && (out + "/" in fs.dirs + Reached(fs.contents, Ancestors(outDir, suffix)) <==> out + "/" in fs.dirs)
            && (Fits(fs, outDir, suffix) <==>
                  suffix[|suffix| - 1] != '/' && !InTheWay(fs.contents, out) && out + "/" !in fs.dirs)
            && (!InTheWay(fs.contents, out) ==>
                  Reached(fs.contents, Ancestors(outDir, suffix)) == Ancestors(outDir, suffix))
  {
    hide Rooted;
    IsNoAncestor(outDir, suffix);
    InTheWayIff(fs, outDir, suffix, |suffix|);
    assert suffix[..|suffix|] == suffix;
    AllAncestors([], outDir, suffix);
    forall d | d in Ancestors(outDir, suffix) && InTheWay(fs.contents, d)
      ensures InTheWay(fs.contents, outDir + suffix)
    {
      var k :| 0 < k <= |suffix| && EndsInSlash(suffix, k) && d == outDir + suffix[..k];
      assert outDir + suffix == d + suffix[k..];
      WayGrows(fs.contents, d, outDir + suffix);
    }
  }

  lemma IsNoAncestor(outDir: string, suffix: string)
    ensures outDir + suffix + "/" !in Ancestors(outDir, suffix)
  {
    forall k | 0 < k <= |suffix|
      ensures outDir + suffix[..k] != outDir + suffix + "/"
    {
      assert |outDir + suffix[..k]| < |outDir + suffix + "/"|;
    }
  }

  lemma LastStretch(visited: seq<string>, outDir: string, suffix: string, start: nat)
    requires start < |suffix| && '/' !in suffix[start..] && VisitedUpTo(visited, outDir, suffix, start)
    ensures VisitedUpTo(visited, outDir, suffix, |suffix|)
    ensures AncestorsUpTo(outDir, suffix, |suffix|) == AncestorsUpTo(outDir, suffix, start) == Ancestors(outDir, suffix)
    ensures suffix[..|suffix|] == suffix
    ensures suffix[|suffix| - 1] != '/'
  {
    NoMoreAncestors(outDir, suffix, start);
    AllAncestors(visited, outDir, suffix);
    assert suffix[|suffix| - 1] == suffix[start..][|suffix| - 1 - start];
  }

  lemma FirstIsIn(suffix: string, end: nat)
    requires end < |suffix| && suffix[0] == '/'
    ensures end > 0 ==> '/' in suffix[0..end]
  {
    if end > 0 {
      assert suffix[0..end][0] == '/';
    }
  }

  /** Unless a file is in the way the next path to visit exists already or its parent does. */
  lemma HasPlace(fs: OutputTree, outDir: string, suffix: string, start: nat, end: nat)
    requires suffix != "" && suffix[0] == '/' && outDir + "/" in fs.dirs
    requires start <= end < |suffix| && '/' !in suffix[start..end]
    requires start > 0 ==> suffix[start - 1] == '/'
    requires Reached(fs.contents, AncestorsUpTo(outDir, suffix, start)) <= fs.dirs
    ensures var path := outDir + suffix[..end + 1];
            && !InTheWay(fs.contents, path) ==>
              && (path in fs.dirs || fs.HasParent(path))
              && (suffix[end] != '/' ==> fs.HasParent(path))
  {
    FirstIsIn(suffix, end);
    var path := outDir + suffix[..end + 1];
    if start == 0 {
      assert suffix[..1] == "/";
    } else if !InTheWay(fs.contents, path) {
      assert EndsInSlash(suffix, start);
      var parent := outDir + suffix[..start];
      assert path == parent + suffix[start..end + 1];
      assert parent in Reached(fs.contents, AncestorsUpTo(outDir, suffix, start)) by {
        assert parent in AncestorsUpTo(outDir, suffix, start);
        if InTheWay(fs.contents, parent) {
          WayGrows(fs.contents, parent, path);
        }
      }
      ParentOf(fs, outDir, suffix, start, end);
    }
  }

  lemma ParentOf(fs: OutputTree, outDir: string, suffix: string, start: nat, end: nat)
    requires start <= end < |suffix| && '/' !in suffix[start..end] && outDir + suffix[..start] in fs.dirs
    ensures fs.HasParent(outDir + suffix[..end + 1])
  {
    var parent, name := outDir + suffix[..start], suffix[start..end + 1];
    assert suffix[..start] + name == suffix[..end + 1];
    assert parent + name == outDir + suffix[..end + 1];
    BetweenSlashes(parent, name);
    assert name[..|name| - 1] == suffix[start..end];
  }

  lemma BetweenSlashes(parent: string, name: string)
    requires name != ""
    ensures parent < parent + name
    ensures (parent + name)[|parent|..|parent + name| - 1] == name[..|name| - 1]
  {
  }
}
