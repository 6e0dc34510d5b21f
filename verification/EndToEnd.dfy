/** The main theorems over whole runs. */
module EndToEnd {
  import opened Wire
  import opened PathMapping
  import opened FileTree
  import opened Protocol
  import opened Invariants
  import opened System
  import opened Progress
  import opened Rooms
  import Termination
  import ClientSteps
  import CommSteps

  // ---------------------------------------------------------------- what a finished copy looks like

  /** The output path of a server path. */
  function OutPath(r: Request, path: string): string
    requires Suffix(path, r.directory).Some?
  {
    r.outDir + Suffix(path, r.directory).value
  }

  /** The request was made of this tree: its listing is the walk from the requested directory, and the
      server's disk holds the tree's contents. */
  ghost predicate Serves(cfg: Config, r: Request, root: Node) {
    && root.Directory? && Valid(root)
    && r.listing == Paths(Walk(root, DEFAULT_DIR + r.directory))
    && forall f | f in Walk(root, DEFAULT_DIR + r.directory) :: f.path in cfg.disk && cfg.disk[f.path] == f.content
  }

  /** A tree a file system can hold, with exactly one output file per regular file of the served tree,
      its content (cut to 32 bits of length) in it, and exactly the directories on the way to those
      files. */
  ghost predicate IsCopy(r: Request, found: seq<Found>, fs: Files) {
    Delivered(r, found, fs) && forall o | o in fs.contents :: o + "/" !in fs.dirs
  }

  ghost predicate Delivered(r: Request, found: seq<Found>, fs: Files) {
    && (forall f | f in found :: Suffix(f.path, r.directory).Some?)
    && HasExactly(r, found, fs.contents)
    && (forall d :: d in fs.dirs <==> IsOnTheWay(r, found, d))
  }

  ghost predicate HasExactly(r: Request, found: seq<Found>, contents: map<string, string>)
    requires forall f | f in found :: Suffix(f.path, r.directory).Some?
  {
    && (forall f | f in found :: OutPath(r, f.path) in contents)
    && (forall f | f in found :: contents[OutPath(r, f.path)] == f.content[..|f.content| % TWO_32])
    && (forall o | o in contents :: exists f :: f in found && o == OutPath(r, f.path))
    && |contents| == |found|
  }

  /** The output directory itself, or a directory above one of the output files. */
  ghost predicate IsOnTheWay(r: Request, found: seq<Found>, d: string)
    requires forall f | f in found :: Suffix(f.path, r.directory).Some?
  {
    || d == r.outDir + "/"
    || exists f :: f in found && d in Ancestors(r.outDir, Suffix(f.path, r.directory).value)
  }

  // ---------------------------------------------------------------- rebuilding is copying

  lemma RebuildIsCopy(cfg: Config, r: Request, found: seq<Found>, n: nat)
    requires GoodRequest(r) && r.listing == Paths(found) && DistinctPaths(found) && n <= |found|
    requires forall f | f in found :: f.path in cfg.disk && cfg.disk[f.path] == f.content
    ensures IsCopy(r, found[..n], FilesAfter(cfg, r, n))
  {
    hide FilesAfter, GoodRequest, Delivered;
    RebuildDelivers(cfg, r, found, n);
    NothingClashes(cfg, r, found[..n], FilesAfter(cfg, r, n));
  }

  /** No output file has the name of a directory on the way to another one. */
  lemma NothingClashes(cfg: Config, r: Request, found: seq<Found>, fs: Files)
    requires GoodRequest(r) && Delivered(r, found, fs) && forall f | f in found :: f.path in r.listing
    ensures forall o | o in fs.contents :: o + "/" !in fs.dirs
  {
    hide Suffix, Ancestors, Root, Payload;
    forall o | o in fs.contents
      ensures o + "/" !in fs.dirs
    {
      var f :| f in found && o == OutPath(r, f.path);
      assert !IsOnTheWay(r, found, o + "/") by {
        forall g | g in found
          ensures o + "/" !in Ancestors(r.outDir, Suffix(g.path, r.directory).value)
        {
          FileIsNoAncestor(r.outDir, r.directory, f.path, g.path);
        }
        ServableSuffix(r.directory, f.path);
        OutputIsNotRoot(r.outDir, Suffix(f.path, r.directory).value);
      }
    }
  }

  lemma {:induction false} RebuildDelivers(cfg: Config, r: Request, found: seq<Found>, n: nat)
    requires GoodRequest(r) && r.listing == Paths(found) && DistinctPaths(found) && n <= |found|
    requires forall f | f in found :: f.path in cfg.disk && cfg.disk[f.path] == f.content
    ensures Delivered(r, found[..n], FilesAfter(cfg, r, n))
  {
    hide Suffix, Ancestors, EndsTransfer, Payload, Body, GoodRequest, Rebuild, Delivered;
    if n == 0 {
      ClientSteps.FilesAfterNone(cfg, r);
      FreshIsDelivered(r);
      assert found[..0] == [];
    } else {
      RebuildDelivers(cfg, r, found, n - 1);
      var f := found[n - 1];
      assert found[..n] == found[..n - 1] + [f];
      ClientSteps.FilesAfterNext(cfg, r, n - 1);
      ClientSteps.RecordKinds(r, n - 1);
      assert Records(r)[n - 1] == f.path;
      ListedBody(cfg, r, f);
      assert forall g | g in found[..n - 1] :: g in found && g.path != f.path;
      ListedIsBelowRoot(r, found);
      DeliveryGrows(r, found[..n - 1], f, FilesAfter(cfg, r, n - 1));
    }
  }

  lemma FreshIsDelivered(r: Request)
    ensures Delivered(r, [], Fresh(r.outDir))
  {
  }

  lemma ListedBody(cfg: Config, r: Request, f: Found)
    requires GoodRequest(r) && f.path in r.listing
    requires f.path in cfg.disk && cfg.disk[f.path] == f.content
    ensures Body(cfg.disk, f.path) == f.content
  {
    assert f.path[0] == DEFAULT_DIR[0] != TERMINATION_MSG[0];
  }

  lemma ListedIsBelowRoot(r: Request, found: seq<Found>)
    requires GoodRequest(r) && r.listing == Paths(found)
    ensures '/' in r.directory && forall f | f in found :: Root(r.directory) <= f.path
  {
    forall f | f in found
      ensures Root(r.directory) <= f.path
    {
      var i :| 0 <= i < |found| && found[i] == f;
      assert r.listing[i] in r.listing;
    }
  }

  /** One more file delivered. The mapping being injective, it overwrites nothing. */
  lemma DeliveryGrows(r: Request, found: seq<Found>, f: Found, fs: Files)
    requires '/' in r.directory && Root(r.directory) <= f.path
    requires forall g | g in found :: Root(r.directory) <= g.path && g.path != f.path
    requires Delivered(r, found, fs) && Suffix(f.path, r.directory).Some?
    ensures Delivered(r, found + [f], Place(fs, r.outDir, Suffix(f.path, r.directory).value, Payload(f.content)))
  {
    hide Suffix, Ancestors, Payload, Root, IsOnTheWay, OutPath, Place, HasExactly;
    var content := Payload(f.content);
    PlacesAtOutPath(r, f.path, fs, content);
    NoneIsOverwritten(r, found, f);
    ContentsGrow(r, found, f, fs.contents, fs.contents[OutPath(r, f.path) := content]);
    DirectoriesGrow(r, found, f, fs.dirs, fs.dirs + Ancestors(r.outDir, Suffix(f.path, r.directory).value));
  }

  lemma PlacesAtOutPath(r: Request, path: string, fs: Files, content: string)
    requires Suffix(path, r.directory).Some?
    ensures var suffix := Suffix(path, r.directory).value;
            Place(fs, r.outDir, suffix, content)
            == Files(fs.dirs + Ancestors(r.outDir, suffix), fs.contents[OutPath(r, path) := content])
  {
  }

  lemma NoneIsOverwritten(r: Request, found: seq<Found>, f: Found)
    requires '/' in r.directory && Root(r.directory) <= f.path
    requires forall g | g in found :: Root(r.directory) <= g.path && g.path != f.path
    ensures Suffix(f.path, r.directory).Some?
    ensures forall g | g in found :: Suffix(g.path, r.directory).Some? && OutPath(r, g.path) != OutPath(r, f.path)
  {
    hide Suffix, Root, OutPath;
    OutPathsDiffer(r, f.path, f.path);
    forall g | g in found
      ensures Suffix(g.path, r.directory).Some? && OutPath(r, g.path) != OutPath(r, f.path)
    {
      OutPathsDiffer(r, g.path, f.path);
    }
  }

  lemma ContentsGrow(r: Request, found: seq<Found>, f: Found, contents: map<string, string>,
                     contents': map<string, string>)
    requires Suffix(f.path, r.directory).Some?
    requires forall g | g in found :: Suffix(g.path, r.directory).Some? && OutPath(r, g.path) != OutPath(r, f.path)
    requires HasExactly(r, found, contents) && contents' == contents[OutPath(r, f.path) := Payload(f.content)]
    ensures forall g | g in found + [f] :: Suffix(g.path, r.directory).Some?
    ensures HasExactly(r, found + [f], contents')
  {
    hide Suffix, OutPath;
    var out := OutPath(r, f.path);
    assert out !in contents;
    assert contents'.Keys == contents.Keys + {out};
    forall o | o in contents'
      ensures exists g :: g in found + [f] && o == OutPath(r, g.path)
    {
      if o in contents {
        var g :| g in found && o == OutPath(r, g.path);
        assert g in found + [f];
      } else {
        assert f in found + [f];
      }
    }
  }

  lemma OutPathsDiffer(r: Request, p: string, q: string)
    requires '/' in r.directory && Root(r.directory) <= p && Root(r.directory) <= q
    ensures Suffix(p, r.directory).Some? && Suffix(q, r.directory).Some? && (OutPath(r, p) == OutPath(r, q) <==> p == q)
  {
    hide Suffix, Root;
    MappingKeepsAncestors(r.directory, p, q);
    var s, t := Suffix(p, r.directory).value, Suffix(q, r.directory).value;
    assert (r.outDir + s)[|r.outDir|..] == s && (r.outDir + t)[|r.outDir|..] == t;
  }

  lemma DirectoriesGrow(r: Request, found: seq<Found>, f: Found, dirs: set<string>, dirs': set<string>)
    requires Suffix(f.path, r.directory).Some? && forall g | g in found :: Suffix(g.path, r.directory).Some?
    requires dirs' == dirs + Ancestors(r.outDir, Suffix(f.path, r.directory).value)
    requires forall d :: d in dirs <==> IsOnTheWay(r, found, d)
    ensures forall g | g in found + [f] :: Suffix(g.path, r.directory).Some?
    ensures forall d :: d in dirs' <==> IsOnTheWay(r, found + [f], d)
  {
    hide Suffix, Ancestors;
    forall d
      ensures d in dirs' <==> IsOnTheWay(r, found + [f], d)
    {
      if d in dirs' && d != r.outDir + "/" {
        if d in dirs {
          var g :| g in found && d in Ancestors(r.outDir, Suffix(g.path, r.directory).value);
          assert g in found + [f];
        } else {
          assert f in found + [f];
        }
      }
    }
  }

  /** Every copied file is whole exactly when it is below 4 GiB on the server. */
  lemma CopyIsWholeIff(r: Request, found: seq<Found>, fs: Files, f: Found)
    requires IsCopy(r, found, fs) && f in found
    ensures fs.contents[OutPath(r, f.path)] == f.content <==> |f.content| < TWO_32
  {
    hide Suffix, Ancestors;
    PayloadIsWholeIff(f.content);
  }

  // ---------------------------------------------------------------- maximal runs

  /** Nothing can happen any more, short of a spurious wake-up or ^C. */
  ghost predicate Quiescent(cfg: Config, s: State) {
    forall e: Event | !IsSpurious(e) && !e.Interrupt? :: Step(cfg, s, e).None?
  }

  lemma QuietMeansNotOpen(cfg: Config, s: State, c: nat)
    requires Inv(cfg, s) && FieldsFit(cfg) && SendersServed(cfg, s) && s.running && Quiescent(cfg, s) && c < |s.conns|
    ensures !Live(s.conns[c].comm)
  {
    hide Inv, Quiescent, Step, Live, SendersServed;
    if Live(s.conns[c].comm) {
      var e := OnlySocketsBlock(cfg, s, c);
      QuietBlocks(cfg, s, e);
    }
  }

  lemma QuietMeansAllGone(cfg: Config, s: State, c: nat)
    requires Inv(cfg, s) && FieldsFit(cfg) && SendersServed(cfg, s) && s.running && Quiescent(cfg, s) && c < |s.conns|
    ensures s.conns[c].comm.Gone?
  {
    hide Inv, WorkerStep, CommStep, ClientStep, WakeAll, SendersServed;
    forall d | 0 <= d < |s.conns|
      ensures !Live(s.conns[d].comm)
    {
      QuietMeansNotOpen(cfg, s, d);
    }
    MainIsAccepting(cfg, s);
    assert Step(cfg, s, Accept(c)).None?;
  }

  lemma QuietBlocks(cfg: Config, s: State, e: Event)
    requires Quiescent(cfg, s) && IsThreadStep(e)
    ensures !Enabled(cfg, s, e)
  {
    hide Step;
  }

  /** While the server runs, main ends up waiting in `accept`. */
  lemma MainIsAccepting(cfg: Config, s: State)
    requires Inv(cfg, s) && s.running && Quiescent(cfg, s)
    ensures s.main.InAccept?
  {
    hide QueueLockOk, NodeLockOk, SocketsDistinct, RegistryOk, QueueOk, WorkersOk, ConservationOk, StreamsOk, ConnsOk;
    hide NotEmptyOk, NotFullOk;
    assert Step(cfg, s, MainGoesOn).None?;
  }

  /** A connection that is closed has been served completely. */
  lemma GoneIsServed(cfg: Config, s: State, c: nat)
    requires Inv(cfg, s) && c < |s.conns| && s.conns[c].comm.Gone?
    ensures s.conns[c].client.pc.Finished?
    ensures s.conns[c].client.fs == FilesAfter(cfg, s.conns[c].request, |Records(s.conns[c].request)|)
    ensures s.conns[c].down == Stream(cfg, s.conns[c].request)
    ensures s.conns[c].up == UpBytes(|s.conns[c].request.listing| + 3, true) && s.conns[c].upRead == |s.conns[c].up|
  {
    hide QueueLockOk, NodeLockOk, SocketsDistinct, RegistryOk, QueueOk, WorkersOk, ConservationOk, StreamsOk;
    hide NotEmptyOk, NotFullOk, ConnOk, Stream;
    var k := s.conns[c];
    assert ConnOk(cfg, k);
    CommSteps.DeregisteringHasFinished(cfg, k);
    CommSteps.FinishedConsumedAll(cfg, k);
    FinishedHasAll(cfg, k);
    ClientSteps.DownIsStream(cfg, s, c);
    Termination.StreamEnd(cfg, k.request);
  }

  lemma FinishedHasAll(cfg: Config, k: Conn)
    requires ConnOk(cfg, k) && k.client.pc.Finished?
    ensures k.client.fs == FilesAfter(cfg, k.request, |Records(k.request)|)
    ensures k.up == UpBytes(|k.request.listing| + 3, true)
  {
    hide Base, FilesAfter, UpBytes, GoodRequest;
  }

  lemma LastRecordAddsNothing(cfg: Config, r: Request)
    requires GoodRequest(r)
    ensures FilesAfter(cfg, r, |Records(r)|) == FilesAfter(cfg, r, |r.listing|)
  {
    hide FilesAfter, GoodRequest, EndsTransfer;
    ClientSteps.FilesAfterNext(cfg, r, |r.listing|);
    ClientSteps.RecordKinds(r, |r.listing|);
  }

  /** The client has finished, has consumed its whole stream, has acknowledged n + 2 handshake and file
      messages, the termination record and the end, and holds exactly the copy of the tree it asked for. */
  ghost predicate IsServed(cfg: Config, k: Conn, root: Node) {
    && k.comm.Gone? && k.client.pc.Finished?
    && k.down == Stream(cfg, k.request) && k.up == UpBytes(|k.request.listing| + 3, true) && k.upRead == |k.up|
    && IsCopy(k.request, Walk(root, DEFAULT_DIR + k.request.directory), k.client.fs)
  }

  lemma RestIsServed(cfg: Config, s: State, c: nat, root: Node)
    requires Inv(cfg, s) && FieldsFit(cfg) && SendersServed(cfg, s) && s.running && Quiescent(cfg, s)
    requires c < |s.conns| && Serves(cfg, s.conns[c].request, root)
    ensures IsServed(cfg, s.conns[c], root)
  {
    hide Inv, Quiescent, IsCopy, Stream, UpBytes, GoodRequest, FilesAfter, Walk, Valid, SendersServed, FieldsFit;
    QuietMeansAllGone(cfg, s, c);
    GoneIsServed(cfg, s, c);
    var r := s.conns[c].request;
    RequestIsGood(cfg, s, c);
    LastRecordAddsNothing(cfg, r);
    var found := Walk(root, Root(r.directory));
    WalkIsDistinct(root, Root(r.directory));
    RebuildIsCopy(cfg, r, found, |found|);
    assert found[..|found|] == found;
  }

  /** End to end, for any number of workers and clients whose requests fit the sockets: when a run
      without ^C has come to rest, every client is served. */
  lemma EveryClientGetsItsCopy(cfg: Config, states: seq<State>, events: seq<Event>, c: nat, root: Node)
    requires IsRun(cfg, states, events) && AllRoomy(cfg, states[0]) && c < |states[|events|].conns|
    requires states[|events|].running && Quiescent(cfg, states[|events|])
    requires Serves(cfg, states[|events|].conns[c].request, root)
    ensures IsServed(cfg, states[|events|].conns[c], root)
  {
    hide Inv, Init, Quiescent, Step, Roomy, FieldsFit, SendersServed, Serves, IsServed;
    RunKeepsInvariant(cfg, states, events, |events|);
    RunServesSenders(cfg, states, events, |events|);
    RestIsServed(cfg, states[|events|], c, root);
  }

  /** One worker and one client: however the threads are scheduled, a run without ^C that has come to rest
      has served the client if and only if all its records can enter the queue while the sockets fill. */
  lemma OneClientIsServedIff(cfg: Config, states: seq<State>, events: seq<Event>, root: Node)
    requires IsRun(cfg, states, events) && FieldsFit(cfg)
    requires states[|events|].running && Quiescent(cfg, states[|events|])
    requires |states[|events|].workers| == 1 && |states[|events|].conns| == 1
    requires Serves(cfg, states[|events|].conns[0].request, root)
    ensures IsServed(cfg, states[|events|].conns[0], root) <==> Enough(cfg, states[|events|].conns[0].request)
  {
    hide Inv, Init, Quiescent, Step, FieldsFit, SendersServed, Serves, Enough, IsCopy, Stream, UpBytes;
    var s := states[|events|];
    RunKeepsInvariant(cfg, states, events, |events|);
    RequestsStay(cfg, states, events, |events|);
    if Enough(cfg, s.conns[0].request) {
      SoleServes(cfg, s);
      RestIsServed(cfg, s, 0, root);
    } else {
      NeverServed(cfg, states, events, |events|, 0);
    }
  }

  lemma RequestIsGood(cfg: Config, s: State, c: nat)
    requires Inv(cfg, s) && c < |s.conns|
    ensures GoodRequest(s.conns[c].request)
  {
    hide QueueLockOk, NodeLockOk, SocketsDistinct, RegistryOk, QueueOk, WorkersOk, ConservationOk, StreamsOk;
    hide NotEmptyOk, NotFullOk;
    assert ConnOk(cfg, s.conns[c]);
  }

  ghost function FoundAt(found: seq<Found>, path: string): (f: Found)
    requires path in Paths(found)
    ensures f in found && f.path == path
  {
    var i :| 0 <= i < |found| && found[i].path == path;
    found[i]
  }

  /** The walk itself yields the listing the protocol relies on, as long as no path is too long. */
  lemma ServedListingIsGood(cfg: Config, r: Request, root: Node)
    requires Serves(cfg, r, root) && '/' in r.directory && forall p | p in r.listing :: |p| <= MAX_LENGTH
    ensures GoodRequest(r)
  {
    assert Root(r.directory) == DEFAULT_DIR + r.directory;
    hide Walk, Valid, Root;
    var found := Walk(root, Root(r.directory));
    forall p | p in r.listing
      ensures Root(r.directory) + "/" < p && p[|p| - 1] != '/'
    {
      var f := FoundAt(found, p);
      FoundBelow(root, Root(r.directory), f);
      FoundEndsInName(root, Root(r.directory), f);
    }
    forall p, q | p in r.listing && q in r.listing
      ensures !(p + "/" <= q)
    {
      FilesAreLeaves(root, Root(r.directory), FoundAt(found, p), FoundAt(found, q));
    }
  }

  // ---------------------------------------------------------------- every run can be completed

  lemma WorkersNeverStop(cfg: Config, s: State, w: nat, wake: Option<nat>, n: nat, s': State)
    requires w < |s.workers| && WorkerStep(cfg, s, w, wake, n) == Some(s')
    ensures s'.running == s.running
  {
    hide Encode, OpenConn, FindNode;
  }

  lemma CommsNeverStop(cfg: Config, s: State, c: nat, wake: Option<nat>, s': State)
    requires c < |s.conns| && CommStep(cfg, s, c, wake) == Some(s')
    ensures s'.running == s.running
  {
    hide RemoveNode, BigEndian, Records;
  }

  lemma OnlyInterruptStops(cfg: Config, s: State, e: Event, s': State)
    requires Step(cfg, s, e) == Some(s') && !e.Interrupt?
    ensures s'.running == s.running
  {
    hide WorkerStep, CommStep, ClientStep, WakeAll;
    match e
    case WorkerRuns(w, wake, n) => WorkersNeverStop(cfg, s, w, wake, n, s');
    case CommRuns(c, wake) => CommsNeverStop(cfg, s, c, wake, s');
    case _ =>
  }

  /** The run goes on, by steps that are neither spurious nor ^C, until it has come to rest. */
  ghost predicate Completes(cfg: Config, states: seq<State>, events: seq<Event>, states': seq<State>,
                            events': seq<Event>) {
    && IsRun(cfg, states', events') && states <= states' && events <= events'
    && (forall i | |events| <= i < |events'| :: !IsSpurious(events'[i]) && !events'[i].Interrupt?)
    && Quiescent(cfg, states'[|events'|])
  }

  /** Every run can be completed, and stays without ^C if it was; with `RunsAreBounded`, every way of
      continuing it gets there. */
  lemma {:induction false} EveryRunCanComplete(cfg: Config, states: seq<State>, events: seq<Event>)
    returns (states': seq<State>, events': seq<Event>)
    requires IsRun(cfg, states, events)
    ensures Completes(cfg, states, events, states', events')
    ensures states'[|events'|].running == states[|events|].running
    decreases Termination.Measure(cfg, states[|events|])
  {
    hide Init, Inv, Step, Termination.Measure;
    var s := states[|events|];
    if Quiescent(cfg, s) {
      states', events' := states, events;
    } else {
      var e: Event :| !IsSpurious(e) && !e.Interrupt? && Step(cfg, s, e).Some?;
      var s' := Step(cfg, s, e).value;
      RunKeepsInvariant(cfg, states, events, |events|);
      Termination.StepDecreases(cfg, s, e, s');
      OnlyInterruptStops(cfg, s, e, s');
      states', events' := EveryRunCanComplete(cfg, states + [s'], events + [e]);
    }
  }
}
