/** How the client turns a server path into a path below its output directory
    (`Client_Resolve_FilePath`), as functions on strings. */
module PathMapping {
  import opened Wire

  predicate MatchAt(hay: string, needle: string, i: nat) {
    i <= |hay| && needle <= hay[i..]
  }

  /** `strstr`: the first place where `needle` occurs. */
  function FindFirst(hay: string, needle: string): (r: Option<nat>)
    ensures r.Some? ==> MatchAt(hay, needle, r.value)
    ensures r.Some? ==> forall j | 0 <= j < r.value :: !MatchAt(hay, needle, j)
    ensures r.None? ==> forall j: nat :: !MatchAt(hay, needle, j)
  {
    if needle <= hay then
      assert hay[0..] == hay;
      Some(0)
    else if hay == "" then
      None
    else
      MatchesShift(hay, needle);
      match FindFirst(hay[1..], needle)
      case Some(k) => Some(k + 1)
      case None => None
  }

  lemma MatchesShift(hay: string, needle: string)
    requires hay != ""
    ensures forall j: nat | j > 0 :: MatchAt(hay, needle, j) <==> MatchAt(hay[1..], needle, j - 1)
  {
    forall j: nat | j > 0
      ensures MatchAt(hay, needle, j) <==> MatchAt(hay[1..], needle, j - 1)
    {
      if j <= |hay| {
        assert hay[j..] == hay[1..][j - 1..];
      }
    }
  }

  /** `strrchr(s, '/')` */
  function LastSlash(s: string): (r: Option<nat>)
    ensures r.Some? ==> r.value < |s| && s[r.value] == '/'
    ensures r.Some? ==> forall j | r.value < j < |s| :: s[j] != '/'
    ensures r.None? ==> '/' !in s
  {
    if s == "" then None
    else if s[|s| - 1] == '/' then Some(|s| - 1)
    else LastSlash(s[..|s| - 1])
  }

  /** The tail of a server path that the client keeps; `None` where the C code would go on with a
      NULL pointer. */
  function Suffix(serverPath: string, directory: string): Option<string> {
    match (FindFirst(serverPath, directory), LastSlash(directory))
    case (Some(m), Some(k)) => Some(serverPath[m + k..])
    case _ => None
  }

  /** What is kept of any server path, in terms of the characters alone: with the directory first
      occurring at `m` and its last slash at `k`, everything from `m + k` on. */
  lemma SuffixStartsAt(serverPath: string, directory: string, m: nat, k: nat)
    requires m <= |serverPath| && directory <= serverPath[m..]
    requires forall i | 0 <= i < m :: !(directory <= serverPath[i..])
    requires k < |directory| && directory[k] == '/' && '/' !in directory[k + 1..]
    ensures Suffix(serverPath, directory) == Some(serverPath[m + k..])
  {
    hide FindFirst, LastSlash;
    var first, last := FindFirst(serverPath, directory), LastSlash(directory);
    assert MatchAt(serverPath, directory, m) && forall i | 0 <= i < m :: !MatchAt(serverPath, directory, i);
    assert first == Some(m);
    assert last.Some? && forall j | k < j < |directory| :: directory[j] == directory[k + 1..][j - k - 1];
  }

  /** When the directory does not occur in the path, or has no slash, there is nothing to keep. */
  lemma NoSuffixIff(serverPath: string, directory: string)
    ensures Suffix(serverPath, directory).None?
       <==> '/' !in directory || forall i | 0 <= i <= |serverPath| :: !(directory <= serverPath[i..])
  {
    hide FindFirst, LastSlash;
    var first := FindFirst(serverPath, directory);
    assert first.Some? ==> MatchAt(serverPath, directory, first.value);
    if first.None? {
      forall i | 0 <= i <= |serverPath|
        ensures !(directory <= serverPath[i..])
      {
        assert !MatchAt(serverPath, directory, i);
      }
    }
  }

  /** Where the requested directory lies on the server: every path sent extends it. */
  function Root(directory: string): string {
    DEFAULT_DIR + directory
  }

  /** The first match is decided inside the root, so it is the same for every path below it. */
  lemma FirstMatchIsInRoot(directory: string, tail: string)
    ensures FindFirst(Root(directory), directory).Some?
    ensures FindFirst(Root(directory) + tail, directory) == FindFirst(Root(directory), directory)
    ensures FindFirst(Root(directory), directory).value <= |DEFAULT_DIR|
  {
    var root := Root(directory);
    assert MatchAt(root, directory, |DEFAULT_DIR|);
    forall j: nat | j <= |DEFAULT_DIR|
      ensures MatchAt(root + tail, directory, j) <==> MatchAt(root, directory, j)
    {
      assert (root + tail)[j..] == root[j..] + tail;
    }
  }

  /** How many characters of every server path the client drops. */
  function Offset(directory: string): (r: nat)
    requires '/' in directory
    ensures r < |Root(directory)| && Root(directory)[r] == '/'
  {
    FirstMatchIsInRoot(directory, "");
    var m, k := FindFirst(Root(directory), directory).value, LastSlash(directory).value;
    assert Root(directory)[m..][k] == directory[k];
    m + k
  }

  /** One constant shift for the whole transfer; what is kept starts with a slash. */
  lemma MappingIsAConstantShift(directory: string, tail: string)
    requires '/' in directory
    ensures Suffix(Root(directory) + tail, directory) == Some((Root(directory) + tail)[Offset(directory)..])
    ensures (Root(directory) + tail)[Offset(directory)] == '/'
  {
    hide FindFirst, LastSlash, Root;
    FirstMatchIsInRoot(directory, tail);
  }

  /** The mapping is injective and keeps the prefix order, hence ancestors, both ways. */
  lemma MappingKeepsAncestors(directory: string, p: string, q: string)
    requires '/' in directory && Root(directory) <= p && Root(directory) <= q
    ensures Suffix(p, directory).Some? && Suffix(q, directory).Some?
    ensures Suffix(p, directory).value <= Suffix(q, directory).value <==> p <= q
    ensures Suffix(p, directory) == Suffix(q, directory) <==> p == q
  {
    hide FindFirst, LastSlash;
    var root, o := Root(directory), Offset(directory);
    assert p == root + p[|root|..] && q == root + q[|root|..];
    MappingIsAConstantShift(directory, p[|root|..]);
    MappingIsAConstantShift(directory, q[|root|..]);
    DropKeepsOrder(root, o, p, q);
  }

  lemma DropKeepsOrder(root: string, o: nat, p: string, q: string)
    requires o <= |root| && root <= p && root <= q
    ensures p[o..] <= q[o..] <==> p <= q
    ensures p[o..] == q[o..] <==> p == q
  {
    assert p == root[..o] + p[o..] && q == root[..o] + q[o..];
    if p[o..] <= q[o..] {
      assert q[o..] == p[o..] + q[o..][|p[o..]|..];
      assert q == p + q[o..][|p[o..]|..];
    }
  }

  /** The copy sits directly below the output directory, under the last component of the requested
      directory, exactly when the requested directory does not already occur earlier in its own
      server path. Otherwise a chain of extra directories appears above it. */
  lemma KeepsOnlyLastComponentIff(directory: string, tail: string)
    requires '/' in directory
    ensures Suffix(Root(directory) + tail, directory) == Some(directory[LastSlash(directory).value..] + tail)
       <==> FindFirst(Root(directory), directory) == Some(|DEFAULT_DIR|)
  {
    hide FindFirst, LastSlash;
    FirstMatchIsInRoot(directory, tail);
    var root, k := Root(directory), LastSlash(directory).value;
    assert (root + tail)[|DEFAULT_DIR| + k..] == directory[k..] + tail;
  }

  /** A request that shows it: "e/u" first occurs inside "/home/users/". */
  lemma EarlyMatchExample(tail: string)
    ensures Suffix("/home/users/e/u" + tail, "e/u") == Some("/users/e/u" + tail)
  {
    var path := "/home/users/e/u" + tail;
    assert path[4..7] == "e/u";
    assert path[0] == '/' && path[1] == 'h' && path[2] == 'o' && path[3] == 'm';
    assert "e/u"[1] == '/' && "e/u"[2..] == "u";
    SuffixStartsAt(path, "e/u", 4, 1);
    assert path[5..] == "/users/e/u" + tail;
  }

  // ---------------------------------------------------------------- the client's files

  /** A client's output file system: directories are written with their final slash. */
  datatype Files = Files(dirs: set<string>, contents: map<string, string>)

  /** After the output directory has been made. */
  function Fresh(outDir: string): Files {
    Files({outDir + "/"}, map[])
  }

  /** The directories on the way to `outDir + suffix`. */
  function Ancestors(outDir: string, suffix: string): set<string> {
    set k | 0 < k <= |suffix| && EndsInSlash(suffix, k) :: outDir + suffix[..k]
  }

  /** The first `k` characters end in a slash. */
  predicate EndsInSlash(suffix: string, k: int) {
    0 < k <= |suffix| && suffix[k - 1] == '/'
  }

  /** Create the hierarchy and give the file its content. */
  function Place(fs: Files, outDir: string, suffix: string, content: string): Files {
    Files(fs.dirs + Ancestors(outDir, suffix), fs.contents[outDir + suffix := content])
  }

  /** The effect of one received record. */
  function Deliver(fs: Files, outDir: string, directory: string, path: string, content: string): Files {
    if EndsTransfer(path) then fs
    else match Suffix(path, directory)
      case None => fs
      case Some(suffix) => Place(fs, outDir, suffix, content)
  }

  /** The effect of receiving the records of `paths` one after the other. */
  function Rebuild(outDir: string, directory: string, disk: map<string, string>, paths: seq<string>): Files {
    if paths == [] then Fresh(outDir)
    else
      var last := paths[|paths| - 1];
      Deliver(Rebuild(outDir, directory, disk, paths[..|paths| - 1]), outDir, directory, last,
              Payload(Body(disk, last)))
  }

  // ---------------------------------------------------------------- files where directories are wanted

  /** Neither is a directory wanted where a file is, nor a file where a directory is. */
  predicate NoClash(fs: Files, outDir: string, suffix: string) {
    && outDir + suffix + "/" !in fs.dirs
    && forall o | o in fs.contents :: o + "/" !in Ancestors(outDir, suffix)
  }

  /** The hierarchy and then the file can be made; otherwise `open` is never reached or fails, and the
      client exits. */
  predicate Fits(fs: Files, outDir: string, suffix: string) {
    suffix != "" && suffix[|suffix| - 1] != '/' && NoClash(fs, outDir, suffix)
  }

  /** What a walk from the requested directory can list: files strictly below it, none of them below
      another one. */
  predicate Servable(directory: string, paths: seq<string>) {
    && '/' in directory
    && (forall p | p in paths :: Root(directory) + "/" < p && p[|p| - 1] != '/')
    && (forall p, q | p in paths && q in paths :: !(p + "/" <= q))
  }

  /** A file path goes on its way untouched up to its last character. */
  lemma ServableSuffix(directory: string, path: string)
    requires '/' in directory && Root(directory) + "/" < path && path[|path| - 1] != '/'
    ensures !EndsTransfer(path) && Suffix(path, directory).Some?
    ensures var s := Suffix(path, directory).value; s != "" && s[0] == '/' && s[|s| - 1] == path[|path| - 1] != '/'
  {
    hide FindFirst, LastSlash, Suffix;
    assert path[0] == DEFAULT_DIR[0] != TERMINATION_MSG[0];
    var tail := path[|Root(directory)|..];
    assert path == Root(directory) + tail;
    MappingIsAConstantShift(directory, tail);
    assert path[Offset(directory)..][0] == '/';
  }

  lemma AncestorIsPrefix(outDir: string, suffix: string, x: string)
    ensures outDir + x in Ancestors(outDir, suffix) ==> x <= suffix
  {
    forall k | 0 < k <= |suffix| && EndsInSlash(suffix, k) && outDir + x == outDir + suffix[..k]
      ensures x <= suffix
    {
      assert (outDir + x)[|outDir|..] == x && (outDir + suffix[..k])[|outDir|..] == suffix[..k];
    }
  }

  lemma SuffixGrows(directory: string, p: string)
    requires '/' in directory && Root(directory) <= p
    ensures Root(directory) <= p + "/"
    ensures Suffix(p, directory).Some? && Suffix(p + "/", directory) == Some(Suffix(p, directory).value + "/")
  {
    hide FindFirst, LastSlash, Suffix;
    var root, tail, o := Root(directory), p[|Root(directory)|..], Offset(directory);
    assert p == root + tail && p + "/" == root + (tail + "/");
    MappingIsAConstantShift(directory, tail);
    MappingIsAConstantShift(directory, tail + "/");
    assert (p + "/")[o..] == p[o..] + "/";
  }

  /** The mapping keeps files apart from directories, because it keeps ancestors. */
  lemma FileIsNoAncestor(outDir: string, directory: string, p: string, q: string)
    requires '/' in directory && Root(directory) <= p && Root(directory) <= q && !(p + "/" <= q)
    ensures Suffix(p, directory).Some? && Suffix(q, directory).Some?
    ensures outDir + Suffix(p, directory).value + "/" !in Ancestors(outDir, Suffix(q, directory).value)
  {
    SuffixGrows(directory, p);
    hide Suffix, Root, Ancestors;
    MappingKeepsAncestors(directory, p + "/", q);
    var s, t := Suffix(p, directory).value, Suffix(q, directory).value;
    AncestorIsPrefix(outDir, t, s + "/");
    assert outDir + (s + "/") == outDir + s + "/";
  }

  lemma OutputIsNotRoot(outDir: string, suffix: string)
    requires suffix != ""
    ensures outDir + suffix + "/" != outDir + "/"
  {
    assert |outDir + suffix + "/"| > |outDir + "/"|;
  }

  /** The output file of some path of the list. */
  ghost predicate IsOutput(outDir: string, directory: string, paths: seq<string>, o: string) {
    exists p :: p in paths && Suffix(p, directory).Some? && o == outDir + Suffix(p, directory).value
  }

  /** The output directory or an ancestor of some path of the list. */
  ghost predicate IsAbove(outDir: string, directory: string, paths: seq<string>, d: string) {
    || d == outDir + "/"
    || exists p :: p in paths && Suffix(p, directory).Some? && d in Ancestors(outDir, Suffix(p, directory).value)
  }

  /** Receiving records makes nothing but their outputs and what lies above them. */
  lemma {:induction false} RebuildMakesOnly(outDir: string, directory: string, disk: map<string, string>,
                                            paths: seq<string>)
    ensures var fs := Rebuild(outDir, directory, disk, paths);
            && (forall o | o in fs.contents :: IsOutput(outDir, directory, paths, o))
            && (forall d | d in fs.dirs :: IsAbove(outDir, directory, paths, d))
  {
    hide Suffix, Ancestors, Payload, Body, EndsTransfer;
    if paths != [] {
      var before, last := paths[..|paths| - 1], paths[|paths| - 1];
      RebuildMakesOnly(outDir, directory, disk, before);
      assert last in paths && forall p | p in before :: p in paths;
      var fs, fs' := Rebuild(outDir, directory, disk, before), Rebuild(outDir, directory, disk, paths);
      forall o | o in fs'.contents
        ensures IsOutput(outDir, directory, paths, o)
      {
        assert o in fs.contents ==> IsOutput(outDir, directory, before, o);
      }
      forall d | d in fs'.dirs
        ensures IsAbove(outDir, directory, paths, d)
      {
        assert d in fs.dirs ==> IsAbove(outDir, directory, before, d);
      }
    }
  }

  /** So the next file of a servable list always fits. */
  lemma RebuildFits(outDir: string, directory: string, disk: map<string, string>, paths: seq<string>, next: string)
    requires Servable(directory, paths + [next])
    ensures Suffix(next, directory).Some?
    ensures Fits(Rebuild(outDir, directory, disk, paths), outDir, Suffix(next, directory).value)
  {
    assert next in paths + [next] && forall p | p in paths :: p in paths + [next];
    ServableSuffix(directory, next);
    RebuildMakesOnly(outDir, directory, disk, paths);
    NextIsApart(outDir, directory, paths, next);
    hide Suffix, Ancestors, Rebuild, IsOutput, IsAbove, Servable;
  }

  lemma NextIsApart(outDir: string, directory: string, paths: seq<string>, next: string)
    requires Servable(directory, paths + [next]) && Suffix(next, directory).Some? && Suffix(next, directory).value != ""
    ensures forall o | IsOutput(outDir, directory, paths, o) ::
            o + "/" !in Ancestors(outDir, Suffix(next, directory).value)
    ensures !IsAbove(outDir, directory, paths, outDir + Suffix(next, directory).value + "/")
  {
    hide Suffix, Ancestors, Root;
    assert next in paths + [next] && forall p | p in paths :: p in paths + [next];
    forall p | p in paths && Suffix(p, directory).Some?
      ensures outDir + Suffix(p, directory).value + "/" !in Ancestors(outDir, Suffix(next, directory).value)
      ensures outDir + Suffix(next, directory).value + "/" !in Ancestors(outDir, Suffix(p, directory).value)
    {
      FileIsNoAncestor(outDir, directory, p, next);
      FileIsNoAncestor(outDir, directory, next, p);
    }
    OutputIsNotRoot(outDir, Suffix(next, directory).value);
  }
}
