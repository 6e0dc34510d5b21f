/** Deadlock freedom: while the server runs, as long as some connection is open some thread of the
    server or some client can take a step of its own, unless every worker that could is held up in a
    `write` to a full socket. When that cannot be is the subject of `Rooms`. */
module Progress {
  import opened Wire
  import opened PathMapping
  import opened Protocol
  import opened Invariants
  import opened Frames
  import WorkerSteps
  import CommSteps
  import ClientSteps

  /** A step of a worker, a communication thread or a client, not of the environment. */
  predicate IsThreadStep(e: Event) {
    e.WorkerRuns? || e.CommRuns? || e.ClientRuns?
  }

  ghost predicate Enabled(cfg: Config, s: State, e: Event) {
    Step(cfg, s, e).Some?
  }

  /** The handshake and every field a client reads at once fit into the sockets. */
  predicate FieldsFit(cfg: Config) {
    cfg.upRoom >= 3 && cfg.downRoom >= MAX_LENGTH && cfg.downRoom >= cfg.blockSize
  }

  /** When a worker is in its send loop, somebody can go on: the worker, its client, or the communication
      thread that makes room for the client's acknowledgements. */
  ghost predicate SendersServed(cfg: Config, s: State) {
    forall w | 0 <= w < |s.workers| && s.workers[w].Send? :: SomeoneMoves(cfg, s)
  }

  ghost predicate SomeoneMoves(cfg: Config, s: State) {
    exists e :: IsThreadStep(e) && Enabled(cfg, s, e)
  }

  // ---------------------------------------------------------------- workers

  /** A worker that is neither asleep, nor gone, nor waiting for a mutex or a socket can move. */
  lemma WorkerMoves(cfg: Config, s: State, w: nat) returns (e: Event)
    requires NodeLockOk(s) && w < |s.workers| && WorkerOk(s, s.workers[w])
    requires var pc := s.workers[w];
             && !pc.Asleep? && !pc.Exited? && !pc.Send?
             && (pc.Lock? || pc.Reacquire? ==> s.lock.None?)
             && (pc.LockNode? ==> pc.node < |s.conns| && s.conns[pc.node].holder.None?)
    ensures e.WorkerRuns? && e.w == w && Enabled(cfg, s, e)
  {
    hide NodeLockOk, Encode, FindNode, OpenConn;
    var wake: Option<nat> := None;
    if s.workers[w].SignalNotFull? && exists c :: 0 <= c < |s.conns| && s.conns[c].comm.Asleep? {
      var c: nat :| c < |s.conns| && s.conns[c].comm.Asleep?;
      wake := Some(c);
    }
    if s.workers[w].UnlockNode? {
      HeldNodeExists(s, w);
    }
    e := WorkerRuns(w, wake, 1);
  }

  /** The same, with somebody else moving for a worker before a full socket. */
  lemma AwakeWorkerMoves(cfg: Config, s: State, w: nat) returns (e: Event)
    requires NodeLockOk(s) && SendersServed(cfg, s) && w < |s.workers| && WorkerOk(s, s.workers[w])
    requires var pc := s.workers[w];
             && !pc.Asleep? && !pc.Exited? && !pc.LockNode?
             && (pc.Lock? || pc.Reacquire? ==> s.lock.None?)
    ensures IsThreadStep(e) && Enabled(cfg, s, e)
  {
    hide NodeLockOk, Enabled;
    if s.workers[w].Send? {
      assert SomeoneMoves(cfg, s);
      e :| IsThreadStep(e) && Enabled(cfg, s, e);
    } else {
      e := WorkerMoves(cfg, s, w);
    }
  }

  lemma HeldNodeExists(s: State, w: nat)
    requires NodeLockOk(s) && w < |s.workers| && NodeHeld(s.workers[w]).Some?
    ensures NodeHeld(s.workers[w]).value < |s.conns|
  {
  }

  /** The holder of a registry node's mutex never waits for a lock, so whoever waits for it will get
      it: the waiting worker or the holder can move, or somebody can make room for the holder. */
  lemma NodeWaiterIsServed(cfg: Config, s: State, w: nat) returns (e: Event)
    requires NodeLockOk(s) && QueueLockOk(s) && WorkersOk(s) && SendersServed(cfg, s)
    requires w < |s.workers| && s.workers[w].LockNode?
    ensures IsThreadStep(e) && Enabled(cfg, s, e)
  {
    hide SendersServed, Encode, FindNode, OpenConn;
    var node := s.workers[w].node;
    assert WorkerOk(s, s.workers[w]);
    match s.conns[node].holder {
      case None => e := WorkerRuns(w, None, 1);
      case Some(v) =>
        assert NodeHeld(s.workers[v]) == Some(node);
        WorkerSteps.LockExcludes(s, v);
        WorkerSteps.LockExcludes(s, w);
        WorkerSteps.WorkerIsOk(s, v);
        hide NodeLockOk, QueueLockOk;
        e := AwakeWorkerMoves(cfg, s, v);
    }
  }

  // ---------------------------------------------------------------- communication threads

  predicate CommBlocked(cfg: Config, s: State, k: Conn) {
    match k.comm
    case SendBlockSize => !HasDownRoom(cfg, k, 4)
    case Unborn => true
    case Gone => true
    case Asleep => true
    case Lock => s.lock.Some?
    case Reacquire => s.lock.Some?
    case ReadDirectoryAck => |k.up| < k.upRead + 3
    case ReadBlockAck => |k.up| < k.upRead + 3
    case ReadAck => |k.up| < k.upRead + 3
    case _ => false
  }

  lemma CommMoves(cfg: Config, s: State, c: nat) returns (e: Event)
    requires c < |s.conns| && CommOk(s.conns[c]) && !CommBlocked(cfg, s, s.conns[c])
    ensures e.CommRuns? && e.c == c && Enabled(cfg, s, e)
  {
    hide RemoveNode, BigEndian, Records;
    var wake: Option<nat> := None;
    if s.conns[c].comm.SignalNotEmpty? && exists w :: 0 <= w < |s.workers| && s.workers[w].Asleep? {
      var w: nat :| w < |s.workers| && s.workers[w].Asleep?;
      wake := Some(w);
    }
    e := CommRuns(c, wake);
  }

  // ---------------------------------------------------------------- clients

  /** With the whole stream written, or only its head while the handshake lasts, a client that has
      not finished can move. */
  lemma ClientMoves(cfg: Config, k: Conn)
    requires GoodConfig(cfg) && ConnOk(cfg, k) && !k.client.pc.Finished? && !k.comm.Unborn? && !k.comm.Register?
    requires k.client.pc.AckDirectory? || |k.down| >= 4
    requires k.client.pc.AckDirectory? || k.client.pc.ReadBlockSize? || k.client.pc.AckBlockSize?
          || |k.down| == Base(cfg, k.request, |Records(k.request)|)
    ensures ClientStep(k).Some?
  {
    hide UpOk, CommOk, Base, FilesAfter, PayloadOf, Suffix, EndsTransfer, FromBigEndian, Records, Stream;
    hide ClientCopies, GoodRequest, Place;
    var d := k.client.decoded;
    if d < |Records(k.request)| {
      ClientSteps.RecordFields(cfg, k.request, d);
      CommSteps.BaseGrows(cfg, k.request, d + 1, |Records(k.request)|);
    }
    if k.client.pc.ReadChunk? {
      ChunkIsThere(cfg, k);
    }
  }

  lemma ChunkIsThere(cfg: Config, k: Conn)
    requires GoodConfig(cfg) && ConnOk(cfg, k) && k.client.pc.ReadChunk? && k.client.decoded < |Records(k.request)|
    requires var (r, d) := (k.request, k.client.decoded);
             Base(cfg, r, d) + 6 + |Records(r)[d]| + |PayloadOf(cfg, r, d)| <= |k.down|
    ensures ClientCopies(k, k.client.pc.path, k.client.pc.out, k.client.pc.counter).Some?
  {
    hide UpOk, CommOk, Base, FilesAfter, PayloadOf, Suffix, EndsTransfer, NextBlock, CountDown, ToInt32, Records;
    hide Stream, GoodRequest, Place;
    var got := |k.client.fs.contents[k.client.pc.out]|;
    ClientSteps.PayloadFits(cfg, k.request, k.client.decoded);
    ClientSteps.CounterIsExact(|PayloadOf(cfg, k.request, k.client.decoded)| - got, k.client.block);
  }

  // ---------------------------------------------------------------- when every thread is blocked

  ghost predicate AllBlocked(cfg: Config, s: State) {
    && s.lock.None?
    && (forall w | 0 <= w < |s.workers| :: s.workers[w].Asleep?)
    && (forall c | 0 <= c < |s.conns| :: CommBlocked(cfg, s, s.conns[c]))
  }

  /** No lost wake-up: if every worker sleeps and every communication thread is blocked, then the
      queue is empty and no communication thread is waiting for room in it. */
  lemma NoLostWakeUp(cfg: Config, s: State)
    requires Inv(cfg, s) && s.running && AllBlocked(cfg, s)
    ensures s.queue == []
    ensures forall c | 0 <= c < |s.conns| :: !s.conns[c].comm.Asleep?
  {
    hide QueueLockOk, NodeLockOk, SocketsDistinct, RegistryOk, QueueOk, WorkersOk, ConservationOk, StreamsOk;
    hide ConnsOk, Sum;
    SumIsZero(s.workers, Unpopped);
    SumIsZero(s.conns, OwesNotEmpty);
    SumIsZero(s.conns, AwakeInserter);
    SumIsZero(s.workers, OwesNotFull);
    assert s.workers[0].Asleep?;
  }

  lemma SleepersHoldNothing(cfg: Config, s: State, c: nat)
    requires NodeLockOk(s) && AllBlocked(cfg, s) && c < |s.conns|
    ensures s.conns[c].holder.None?
  {
    assert s.conns[c].holder.Some? ==> s.workers[s.conns[c].holder.value].Asleep?;
  }

  lemma QuietMeansAllSent(cfg: Config, s: State, c: nat)
    requires c < |s.conns| && s.conns[c].comm.ReadAck? && s.queue == []
    requires NodeLockOk(s) && ConservationOk(s) && StreamsOk(cfg, s) && CommOk(s.conns[c]) && AllBlocked(cfg, s)
    ensures |s.conns[c].down| == Base(cfg, s.conns[c].request, |Records(s.conns[c].request)|)
  {
    hide Base, Stream, Encode;
    var k := s.conns[c];
    assert Conserved(s, c);
    assert DownOk(cfg, k, WrittenInFlight(s, c));
    assert Held(s, c) == [] && Filter(s.queue, k.request.socket) == [];
    SleepersHoldNothing(cfg, s, c);
    assert InFlight(s, c) == [] && WrittenInFlight(s, c) == 0;
    assert |Records(k.request)[k.sent..k.inserted]| == 0;
  }

  lemma HandshakeSaysHello(cfg: Config, s: State, c: nat)
    requires StreamsOk(cfg, s) && c < |s.conns| && !BeforeStream(s.conns[c].comm)
    ensures |s.conns[c].down| >= 4
  {
    assert DownOk(cfg, s.conns[c], WrittenInFlight(s, c));
  }

  /** A communication thread waiting for bytes that are not there yet: its client has not finished. */
  lemma WaitedForClientIsNotDone(cfg: Config, k: Conn)
    requires ConnOk(cfg, k) && |k.up| < k.upRead + 3
    requires k.comm.ReadDirectoryAck? || k.comm.ReadBlockAck? || k.comm.ReadAck?
    ensures !k.client.pc.Finished?
    ensures k.comm.ReadDirectoryAck? ==> k.client.pc.AckDirectory?
    ensures k.comm.ReadBlockAck? ==>
              k.client.pc.AckDirectory? || k.client.pc.ReadBlockSize? || k.client.pc.AckBlockSize?
  {
    hide ClientOk, UpBytes, GoodRequest;
    CommSteps.UpLength(Acks(k.client), k.client.pc.Finished?);
  }

  /** Nothing has been written to the client before the block size. */
  lemma BlockSizeFits(cfg: Config, s: State, c: nat)
    requires StreamsOk(cfg, s) && FieldsFit(cfg) && c < |s.conns| && s.conns[c].comm.SendBlockSize?
    ensures HasDownRoom(cfg, s.conns[c], 4)
  {
    hide Base, Stream, Encode;
    assert DownOk(cfg, s.conns[c], WrittenInFlight(s, c));
  }

  /** A client whose communication thread waits for it has room to write. */
  lemma AwaitedClientHasRoom(cfg: Config, k: Conn)
    requires ConnOk(cfg, k) && FieldsFit(cfg) && |k.up| < k.upRead + 3 && ClientStep(k).Some?
    requires k.comm.ReadDirectoryAck? || k.comm.ReadBlockAck? || k.comm.ReadAck?
    ensures UpFits(cfg, ClientStep(k).value)
  {
    hide ClientOk, UpBytes, GoodRequest;
    CommSteps.UpLength(Acks(k.client), k.client.pc.Finished?);
    WritesThree(k);
    hide ClientStep;
  }

  lemma WritesThree(k: Conn)
    requires ClientStep(k).Some?
    ensures var k' := ClientStep(k).value; |k'.up| <= |k.up| + 3 && k' == k.(up := k'.up, client := k'.client)
  {
    hide FromBigEndian, Suffix, Fits, Place, EndsTransfer, NextBlock, CountDown, ToInt32;
  }

  lemma BlockedThreadsLeaveAClient(cfg: Config, s: State, c: nat) returns (e: Event)
    requires Inv(cfg, s) && FieldsFit(cfg) && s.running && AllBlocked(cfg, s) && c < |s.conns| && Live(s.conns[c].comm)
    ensures IsThreadStep(e) && Enabled(cfg, s, e)
  {
    hide QueueLockOk, NodeLockOk, SocketsDistinct, RegistryOk, QueueOk, WorkersOk, ConservationOk, StreamsOk;
    hide NotEmptyOk, NotFullOk, Base, Records, ClientStep, ClientOk, FieldsFit, HasDownRoom, UpFits;
    NoLostWakeUp(cfg, s);
    var k := s.conns[c];
    assert ConnOk(cfg, k) && CommBlocked(cfg, s, k);
    if k.comm.SendBlockSize? {
      BlockSizeFits(cfg, s, c);
    }
    WaitedForClientIsNotDone(cfg, k);
    if k.comm.ReadAck? {
      QuietMeansAllSent(cfg, s, c);
    }
    if !BeforeStream(k.comm) {
      HandshakeSaysHello(cfg, s, c);
    }
    ClientMoves(cfg, k);
    AwaitedClientHasRoom(cfg, k);
    e := ClientRuns(c);
  }

  // ---------------------------------------------------------------- deadlock freedom

  lemma LockHolderMoves(cfg: Config, s: State) returns (e: Event)
    requires Inv(cfg, s) && SendersServed(cfg, s) && s.lock.Some?
    ensures IsThreadStep(e) && Enabled(cfg, s, e)
  {
    hide NodeLockOk, SocketsDistinct, RegistryOk, QueueOk, ConservationOk, StreamsOk, NotEmptyOk, NotFullOk, Step;
    match s.lock.value {
      case WorkerThread(w) =>
        WorkerSteps.WorkerIsOk(s, w);
        if s.workers[w].LockNode? {
          e := NodeWaiterIsServed(cfg, s, w);
        } else {
          e := AwakeWorkerMoves(cfg, s, w);
        }
      case CommThread(c) =>
        assert ConnOk(cfg, s.conns[c]);
        e := CommMoves(cfg, s, c);
    }
  }

  /** Some connection is open and the server runs: if no worker is held up in its send loop, some thread
      can take a step. */
  lemma OnlySocketsBlock(cfg: Config, s: State, c: nat) returns (e: Event)
    requires Inv(cfg, s) && FieldsFit(cfg) && SendersServed(cfg, s)
    requires s.running && c < |s.conns| && Live(s.conns[c].comm)
    ensures IsThreadStep(e) && Enabled(cfg, s, e)
  {
    hide NodeLockOk, SocketsDistinct, RegistryOk, QueueOk, ConservationOk, StreamsOk, NotEmptyOk, NotFullOk, Step;
    hide Live, Enabled, ConnOk;
    if s.lock.Some? {
      e := LockHolderMoves(cfg, s);
    } else if w: nat :| w < |s.workers| && !s.workers[w].Asleep? {
      WorkerSteps.WorkerIsOk(s, w);
      WorkerSteps.LockExcludes(s, w);
      e := AwakeWorkerMoves(cfg, s, w);
    } else if d: nat :| d < |s.conns| && !CommBlocked(cfg, s, s.conns[d]) {
      assert ConnOk(cfg, s.conns[d]);
      OnlyComm(cfg, s.conns[d]);
      e := CommMoves(cfg, s, d);
    } else {
      e := BlockedThreadsLeaveAClient(cfg, s, c);
    }
  }

  lemma OnlyComm(cfg: Config, k: Conn)
    requires ConnOk(cfg, k)
    ensures CommOk(k)
  {
  }
}
