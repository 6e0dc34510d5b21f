/** The served directory tree and the order in which `Server_Extract_Files_From_Directory` finds its
    regular files. */
module FileTree {

  /** What `stat` and `readdir` say about a path: a directory yields its entries in some order;
      anything else that is not a regular file is skipped. */
  datatype Node = File(content: string) | Directory(entries: seq<Entry>) | Special
  datatype Entry = Entry(name: string, node: Node)

  datatype Found = Found(path: string, content: string)

  predicate IsDots(name: string) {
    name == "." || name == ".."
  }

  /** Names within a directory are distinct, non-empty and without slash. */
  ghost predicate Valid(node: Node) {
    node.Directory? ==>
      && (forall i | 0 <= i < |node.entries| ::
            node.entries[i].name != "" && '/' !in node.entries[i].name && Valid(node.entries[i].node))
      && (forall i, j | 0 <= i < j < |node.entries| :: node.entries[i].name != node.entries[j].name)
  }

  /** The recursive walk from a path. */
  function Walk(node: Node, path: string): seq<Found>
    decreases node, 0
  {
    match node
    case File(content) => [Found(path, content)]
    case Directory(entries) => WalkEntries(entries, path + "/")
    case Special => []
  }

  function WalkEntries(entries: seq<Entry>, prefix: string): seq<Found>
    decreases entries, |entries|
  {
    if entries == [] then []
    else
      var last := entries[|entries| - 1];
      WalkEntries(entries[..|entries| - 1], prefix)
      + (if IsDots(last.name) then [] else Walk(last.node, prefix + last.name))
  }

  function Paths(found: seq<Found>): (ps: seq<string>)
    ensures |ps| == |found|
    ensures forall i | 0 <= i < |found| :: ps[i] == found[i].path
  {
    seq(|found|, i requires 0 <= i < |found| => found[i].path)
  }

  // ---------------------------------------------------------------- what is found

  /** The tree holds a regular file with this content at the end of this chain of names. */
  ghost predicate HasFile(node: Node, names: seq<string>, content: string)
    decreases node
  {
    if names == [] then node == File(content)
    else node.Directory? && exists i ::
      0 <= i < |node.entries| && node.entries[i].name == names[0] && names[0] != "." && names[0] != ".."
      && HasFile(node.entries[i].node, names[1..], content)
  }

  function Join(names: seq<string>): string {
    if names == [] then "" else "/" + names[0] + Join(names[1..])
  }

  /** The order of the walk: all files below the first entry, then those below the others. */
  lemma {:induction false} WalkStartsWithFirst(first: Entry, others: seq<Entry>, path: string)
    ensures Walk(Directory([first] + others), path)
         == (if first.name == "." || first.name == ".." then [] else Walk(first.node, path + "/" + first.name))
          + Walk(Directory(others), path)
    decreases |others|
  {
    var entries := [first] + others;
    if others == [] {
      assert entries[..|entries| - 1] == [];
    } else {
      var init, last := others[..|others| - 1], others[|others| - 1];
      assert entries[..|entries| - 1] == [first] + init && entries[|entries| - 1] == last;
      WalkStartsWithFirst(first, init, path);
    }
  }

  /** A regular file is found, a special one and an empty directory are not. */
  lemma WalkOfOne(node: Node, path: string)
    ensures node.File? ==> Walk(node, path) == [Found(path, node.content)]
    ensures node.Special? || node == Directory([]) ==> Walk(node, path) == []
  {
  }

  /** The walk finds nothing but regular files of the tree. */
  lemma {:induction false} WalkFindsOnlyFiles(node: Node, path: string, f: Found) returns (names: seq<string>)
    requires f in Walk(node, path)
    ensures HasFile(node, names, f.content) && f.path == path + Join(names)
    decreases node, 0
  {
    if node.File? {
      names := [];
      assert f.path == path + "";
    } else {
      var i := EntryOf(node.entries, path + "/", f);
      var e := node.entries[i];
      var rest := WalkFindsOnlyFiles(e.node, path + "/" + e.name, f);
      names := [e.name] + rest;
      assert names[1..] == rest;
      assert path + "/" + e.name + Join(rest) == path + ("/" + e.name + Join(rest));
    }
  }

  /** Everything found in a list of entries was found below one of them. */
  lemma {:induction false} EntryOf(entries: seq<Entry>, prefix: string, f: Found) returns (i: nat)
    requires f in WalkEntries(entries, prefix)
    ensures i < |entries| && entries[i].name != "." && entries[i].name != ".."
    ensures f in Walk(entries[i].node, prefix + entries[i].name)
  {
    var n := |entries| - 1;
    if f in WalkEntries(entries[..n], prefix) {
      i := EntryOf(entries[..n], prefix, f);
    } else {
      i := n;
    }
  }

  /** The walk finds every regular file of the tree. */
  lemma {:induction false} WalkFindsEveryFile(node: Node, path: string, names: seq<string>, content: string)
    requires HasFile(node, names, content)
    ensures Found(path + Join(names), content) in Walk(node, path)
    decreases node
  {
    if names == [] {
      assert path + Join(names) == path;
    } else {
      var i :| 0 <= i < |node.entries| && node.entries[i].name == names[0] && names[0] != "." && names[0] != ".."
               && HasFile(node.entries[i].node, names[1..], content);
      var e := node.entries[i];
      WalkFindsEveryFile(e.node, path + "/" + e.name, names[1..], content);
      assert path + "/" + e.name + Join(names[1..]) == path + Join(names);
      EntriesInclude(node.entries, path + "/", i, Found(path + Join(names), content));
    }
  }

  lemma {:induction false} EntriesInclude(entries: seq<Entry>, prefix: string, i: nat, f: Found)
    requires i < |entries| && entries[i].name != "." && entries[i].name != ".."
    requires f in Walk(entries[i].node, prefix + entries[i].name)
    ensures f in WalkEntries(entries, prefix)
  {
    var n := |entries| - 1;
    if i < n {
      EntriesInclude(entries[..n], prefix, i, f);
    }
  }

  // ---------------------------------------------------------------- distinct paths

  /** A path found from `path` is `path` itself or goes on with a slash. */
  lemma {:induction false} FoundBelow(node: Node, path: string, f: Found)
    requires Valid(node) && f in Walk(node, path)
    ensures f.path == path || path + "/" <= f.path
    ensures node.Directory? ==> path + "/" < f.path
    decreases node
  {
    if node.Directory? {
      var i := EntryOf(node.entries, path + "/", f);
      var e := node.entries[i];
      FoundBelow(e.node, path + "/" + e.name, f);
      assert path + "/" + e.name <= f.path;
      assert e.name != "";
      assert path + "/" < path + "/" + e.name;
    }
  }

  /** Two names without slash, each followed by nothing or by a slash, differ if the names do. */
  lemma NamesSeparate(a: string, b: string, p: string)
    requires '/' !in a && '/' !in b && a <= p && b <= p
    requires |p| == |a| || p[|a|] == '/'
    requires |p| == |b| || p[|b|] == '/'
    ensures a == b
  {
    SlashIsBeyond(a, b, p);
    SlashIsBeyond(b, a, p);
    assert a == p[..|a|] && b == p[..|b|];
  }

  lemma SlashIsBeyond(a: string, b: string, p: string)
    requires '/' !in b && b <= p && |a| <= |p| && (|p| == |a| || p[|a|] == '/')
    ensures |b| <= |a|
  {
    assert forall i | 0 <= i < |b| :: p[i] == b[i] != '/';
  }

  ghost predicate DistinctPaths(found: seq<Found>) {
    forall i, j | 0 <= i < j < |found| :: found[i].path != found[j].path
  }

  lemma BelowDifferentEntries(entries: seq<Entry>, prefix: string, i: nat, j: nat, f: Found, g: Found)
    requires Valid(Directory(entries)) && i < |entries| && j < |entries| && i != j
    requires f in Walk(entries[i].node, prefix + entries[i].name)
             && g in Walk(entries[j].node, prefix + entries[j].name)
    ensures f.path != g.path
  {
    hide Walk;
    var (a, b) := (entries[i], entries[j]);
    FoundBelow(a.node, prefix + a.name, f);
    FoundBelow(b.node, prefix + b.name, g);
    if f.path == g.path {
      var p := f.path[|prefix|..];
      assert f.path == prefix + p;
      NamesSeparate(a.name, b.name, p);
    }
  }

  /** Each regular file is found once. */
  lemma {:induction false} WalkIsDistinct(node: Node, path: string)
    requires Valid(node)
    ensures DistinctPaths(Walk(node, path))
    decreases node, 0
  {
    if node.Directory? {
      EntriesAreDistinct(node.entries, path + "/", |node.entries|);
      assert node.entries[..|node.entries|] == node.entries;
    }
  }

  lemma {:induction false} EntriesAreDistinct(entries: seq<Entry>, prefix: string, n: nat)
    requires n <= |entries| && Valid(Directory(entries))
    ensures DistinctPaths(WalkEntries(entries[..n], prefix))
    decreases entries, n
  {
    if n > 0 {
      var last := entries[n - 1];
      assert entries[..n][..n - 1] == entries[..n - 1];
      EntriesAreDistinct(entries, prefix, n - 1);
      WalkIsDistinct(last.node, prefix + last.name);
      var before := WalkEntries(entries[..n - 1], prefix);
      var here := if IsDots(last.name) then [] else Walk(last.node, prefix + last.name);
      forall f, g | f in before && g in here
        ensures f.path != g.path
      {
        var i := EntryOf(entries[..n - 1], prefix, f);
        BelowDifferentEntries(entries, prefix, i, n - 1, f, g);
      }
      DistinctJoin(before, here);
    }
  }

  lemma DistinctJoin(a: seq<Found>, b: seq<Found>)
    requires DistinctPaths(a) && DistinctPaths(b) && forall f, g | f in a && g in b :: f.path != g.path
    ensures DistinctPaths(a + b)
  {
    forall i, j | 0 <= i < j < |a + b|
      ensures (a + b)[i].path != (a + b)[j].path
    {
      if i < |a| <= j {
        assert a[i] in a && b[j - |a|] in b;
      }
    }
  }

  /** What is found below a directory is a name, not a directory's path with its slash. */
  lemma {:induction false} FoundEndsInName(node: Node, path: string, f: Found)
    requires Valid(node) && f in Walk(node, path)
    requires node.Directory? || (path != "" && path[|path| - 1] != '/')
    ensures f.path != "" && f.path[|f.path| - 1] != '/'
    decreases node
  {
    if node.Directory? {
      var i := EntryOf(node.entries, path + "/", f);
      var e := node.entries[i];
      assert (path + "/" + e.name)[|path + "/" + e.name| - 1] == e.name[|e.name| - 1];
      FoundEndsInName(e.node, path + "/" + e.name, f);
    }
  }

  /** No regular file lies above another one, so the same name is never used for a file and for a
      directory of the copy. */
  lemma {:induction false} FilesAreLeaves(node: Node, path: string, f: Found, g: Found)
    requires Valid(node) && f in Walk(node, path) && g in Walk(node, path)
    ensures !(f.path + "/" <= g.path)
    decreases node
  {
    if node.Directory? {
      var prefix := path + "/";
      var i := EntryOf(node.entries, prefix, f);
      var j := EntryOf(node.entries, prefix, g);
      var (a, b) := (node.entries[i], node.entries[j]);
      if i == j {
        FilesAreLeaves(a.node, prefix + a.name, f, g);
      } else {
        FoundBelow(a.node, prefix + a.name, f);
        FoundBelow(b.node, prefix + b.name, g);
        if f.path + "/" <= g.path {
          BothLeadTo(prefix, a.name, b.name, f.path, g.path);
        }
      }
    }
  }

  lemma BothLeadTo(prefix: string, a: string, b: string, p: string, q: string)
    requires '/' !in a && '/' !in b && p + "/" <= q
    requires p == prefix + a || prefix + a + "/" <= p
    requires q == prefix + b || prefix + b + "/" <= q
    ensures a == b
  {
    assert prefix + a + "/" <= q;
    var rest := q[|prefix|..];
    assert q == prefix + rest;
    assert a + "/" <= rest && rest[|a|] == '/';
    NamesSeparate(a, b, rest);
  }
}
