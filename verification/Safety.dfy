/** What holds in every state of every run, stated without reference to the invariant. */
module Safety {
  import opened Wire
  import opened PathMapping
  import opened Protocol
  import opened Invariants
  import opened System
  import WorkerSteps
  import CommSteps
  import ClientSteps
  import Rooms

  /** Order and conservation: for every registered connection, the records sent, the one in flight,
      the one held by a worker that waits for the connection's mutex, the queued ones and the ones
      not yet inserted are the listing followed by the termination record. */
  lemma RecordsAreConserved(cfg: Config, states: seq<State>, events: seq<Event>, i: nat, c: nat)
    requires IsRun(cfg, states, events) && i < |states| && c < |states[i].conns| && Registered(states[i].conns[c].comm)
    ensures var (s, k) := (states[i], states[i].conns[c]);
            && k.sent <= k.inserted <= |Records(k.request)|
            && k.request.listing + [TERMINATION_MSG]
            == Records(k.request)[..k.sent] + (InFlight(s, c) + Held(s, c) + Filter(s.queue, k.request.socket))
             + Records(k.request)[k.inserted..]
  {
    hide Init, Step, InFlight, Held, Filter, Registered, Inv;
    RunKeepsInvariant(cfg, states, events, i);
    var (s, k) := (states[i], states[i].conns[c]);
    InvConserves(cfg, s, c);
    SplitAround(Records(k.request), k.sent, k.inserted,
        InFlight(s, c) + Held(s, c) + Filter(s.queue, k.request.socket));
  }

  lemma SplitAround(R: seq<string>, a: nat, b: nat, mid: seq<string>)
    requires a <= b <= |R| && R[a..b] == mid
    ensures R == R[..a] + mid + R[b..]
  {
  }

  lemma InvConserves(cfg: Config, s: State, c: nat)
    requires Inv(cfg, s) && c < |s.conns|
    ensures Conserved(s, c)
  {
    hide QueueLockOk, NodeLockOk, SocketsDistinct, RegistryOk, QueueOk, WorkersOk, StreamsOk, ConnsOk, NotEmptyOk;
    hide NotFullOk;
  }

  /** Record atomicity: what has been written to a connection is the block size, the encodings of the
      records sent, and a prefix of the next record's encoding. */
  lemma BytesAreWholeRecords(cfg: Config, states: seq<State>, events: seq<Event>, i: nat, c: nat)
    requires IsRun(cfg, states, events) && i < |states| && c < |states[i].conns|
    requires !BeforeStream(states[i].conns[c].comm)
    ensures var (s, k) := (states[i], states[i].conns[c]);
            && k.sent <= |Records(k.request)|
            && (k.sent == |Records(k.request)| ==> WrittenInFlight(s, c) == 0)
            && (k.sent < |Records(k.request)| ==>
                  WrittenInFlight(s, c) < |Encode(cfg.disk, Records(k.request)[k.sent])|)
            && k.down == BigEndian(cfg.blockSize, 4) + EncodeAll(cfg.disk, Records(k.request)[..k.sent])
                       + (if k.sent == |Records(k.request)| then ""
                          else Encode(cfg.disk, Records(k.request)[k.sent])[..WrittenInFlight(s, c)])
  {
    hide Init, Step, Encode, EncodeAll, BigEndian, BeforeStream, WrittenInFlight;
    RunKeepsInvariant(cfg, states, events, i);
    InvStreams(cfg, states[i], c);
    DownInWords(cfg, states[i].conns[c], WrittenInFlight(states[i], c));
  }

  lemma InvStreams(cfg: Config, s: State, c: nat)
    requires Inv(cfg, s) && c < |s.conns|
    ensures s.conns[c].sent <= |Records(s.conns[c].request)| && DownOk(cfg, s.conns[c], WrittenInFlight(s, c))
  {
    hide QueueLockOk, NodeLockOk, SocketsDistinct, RegistryOk, QueueOk, WorkersOk, ConservationOk, ConnsOk;
    hide NotEmptyOk, NotFullOk, DownOk, WrittenInFlight;
  }

  lemma DownInWords(cfg: Config, k: Conn, inFlight: nat)
    requires k.sent <= |Records(k.request)| && DownOk(cfg, k, inFlight) && !BeforeStream(k.comm)
    ensures k.sent == |Records(k.request)| ==> inFlight == 0
    ensures k.sent < |Records(k.request)| ==> inFlight < |Encode(cfg.disk, Records(k.request)[k.sent])|
    ensures k.down == BigEndian(cfg.blockSize, 4) + EncodeAll(cfg.disk, Records(k.request)[..k.sent])
                    + (if k.sent < |Records(k.request)| then Encode(cfg.disk, Records(k.request)[k.sent])[..inFlight]
                        else "")
  {
    hide Encode, EncodeAll, BigEndian, BeforeStream;
    var R, all := Records(k.request), EncodeAll(cfg.disk, Records(k.request));
    var head, sent := BigEndian(cfg.blockSize, 4), EncodeAll(cfg.disk, R[..k.sent]);
    if k.sent < |R| {
      RecordAt(cfg.disk, R, k.sent);
      PrefixUpTo(head, sent, Encode(cfg.disk, R[k.sent]), all, k.down, inFlight);
    } else {
      assert R[..k.sent] == R;
      assert k.down == head + sent;
    }
  }

  lemma PrefixUpTo(head: string, sent: string, record: string, all: string, down: string, n: nat)
    requires sent + record <= all && down <= head + all && |down| == |head| + |sent| + n && n <= |record|
    ensures down == head + sent + record[..n]
  {
    assert head + all == head + sent + record + all[|sent + record|..];
    assert (head + sent + record)[..|down|] == head + sent + record[..n];
  }

  /** A descriptor number never leads to a stranger: a worker about to write reaches the connection
      its record was queued for, and the record is that connection's next one. */
  lemma WritesGoToTheRightClient(cfg: Config, states: seq<State>, events: seq<Event>, i: nat, w: nat)
    requires IsRun(cfg, states, events) && i < |states| && w < |states[i].workers| && states[i].workers[w].Send?
    ensures var (s, rec, node) := (states[i], states[i].workers[w].rec, states[i].workers[w].node);
            && node < |s.conns| && OpenConn(s.conns, rec.socket, 0) == Some(node)
            && s.conns[node].sent < |Records(s.conns[node].request)|
            && Records(s.conns[node].request)[s.conns[node].sent] == rec.path
  {
    hide Init, Step, OpenConn, QueueLockOk, NodeLockOk, SocketsDistinct, RegistryOk, QueueOk, ConservationOk;
    hide StreamsOk, ConnsOk, NotEmptyOk, NotFullOk;
    RunKeepsInvariant(cfg, states, events, i);
    WorkerSteps.WorkerIsOk(states[i], w);
    WorkerSteps.SendsNextRecord(states[i], w);
    WorkerSteps.WritesReachNode(states[i], states[i].workers[w].node, 0);
  }

  /** At most one worker works on a connection, and at most one has a record without the mutex of
      its connection. */
  lemma OneWorkerPerConnection(cfg: Config, states: seq<State>, events: seq<Event>, i: nat, v: nat, w: nat)
    requires IsRun(cfg, states, events) && i < |states| && v < |states[i].workers| && w < |states[i].workers|
    requires var (p, q) := (states[i].workers[v], states[i].workers[w]);
             (NodeHeld(p).Some? && NodeHeld(p) == NodeHeld(q)) || ((p.Find? || p.LockNode?) && (q.Find? || q.LockNode?))
    ensures v == w
  {
    hide Init, Step, SocketsDistinct, RegistryOk, QueueOk, WorkersOk, ConservationOk, StreamsOk, ConnsOk;
    hide NotEmptyOk, NotFullOk;
    RunKeepsInvariant(cfg, states, events, i);
    if NodeHeld(states[i].workers[v]).Some? {
      assert states[i].conns[NodeHeld(states[i].workers[v]).value].holder == Some(v);
    }
  }

  /** The queue never holds more than `queue_size` records, and whoever inserts has found room. */
  lemma QueueIsBounded(cfg: Config, states: seq<State>, events: seq<Event>, i: nat)
    requires IsRun(cfg, states, events) && i < |states|
    ensures |states[i].queue| <= cfg.capacity
    ensures forall c | 0 <= c < |states[i].conns| && states[i].conns[c].comm.Insert? :: |states[i].queue| < cfg.capacity
  {
    hide Init, Step;
    RunKeepsInvariant(cfg, states, events, i);
    hide QueueLockOk, NodeLockOk, SocketsDistinct, RegistryOk, WorkersOk, ConservationOk, StreamsOk, ConnsOk;
    hide NotEmptyOk, NotFullOk, Names;
  }

  /** Who holds what where: a worker looks up and locks its node while it holds the queue's mutex, and
      signals and sends without it but with the node's; a communication thread tests and inserts under
      the queue's mutex and signals after it has given it up. */
  lemma LocksAreHeldAt(cfg: Config, states: seq<State>, events: seq<Event>, i: nat)
    requires IsRun(cfg, states, events) && i < |states|
    ensures var s := states[i];
            && (forall w | 0 <= w < |s.workers| ::
                  var pc := s.workers[w];
                  && (pc.Test? || pc.GoWait? || pc.Pop? || pc.Find? || pc.LockNode? || pc.UnlockQueue? ==>
                        s.lock == Some(WorkerThread(w)))
                  && (pc.Asleep? || pc.SignalNotFull? || pc.Send? || pc.UnlockNode? ==> s.lock != Some(WorkerThread(w)))
                  && (pc.UnlockQueue? || pc.SignalNotFull? || pc.Send? || pc.UnlockNode? ==>
                        pc.node < |s.conns| && s.conns[pc.node].holder == Some(w)))
            && (forall c | 0 <= c < |s.conns| ::
                  var pc := s.conns[c].comm;
                  && (pc.Test? || pc.Insert? || pc.Unlock? ==> s.lock == Some(CommThread(c)))
                  && (pc.Asleep? || pc.SignalNotEmpty? || pc.ReadAck? ==> s.lock != Some(CommThread(c))))
  {
    hide Init, Step;
    RunKeepsInvariant(cfg, states, events, i);
    hide SocketsDistinct, RegistryOk, QueueOk, WorkersOk, ConservationOk, StreamsOk, ConnsOk, NotEmptyOk, NotFullOk;
  }

  // ---------------------------------------------------------------- the registry

  /** Every lookup by a worker succeeds and finds the one open connection with that descriptor. */
  lemma LookupsSucceed(cfg: Config, states: seq<State>, events: seq<Event>, i: nat, w: nat)
    requires IsRun(cfg, states, events) && i < |states| && w < |states[i].workers|
    ensures !states[i].workers[w].Crashed?
    ensures states[i].workers[w].Find? ==>
              var (s, socket) := (states[i], states[i].workers[w].rec.socket);
              && FindNode(s.registry, socket).Some?
              && forall d | 0 <= d < |s.conns| && Live(s.conns[d].comm) && s.conns[d].request.socket == socket ::
                   FindNode(s.registry, socket) == Some(d)
  {
    hide Init, Step, FindNode, QueueLockOk, NodeLockOk, QueueOk, ConservationOk, StreamsOk, ConnsOk, NotEmptyOk;
    hide NotFullOk;
    RunKeepsInvariant(cfg, states, events, i);
    WorkerSteps.WorkerIsOk(states[i], w);
    if states[i].workers[w].Find? {
      WorkerSteps.LookupSucceeds(states[i], states[i].workers[w].rec.socket);
    }
  }

  /** No two nodes of the registry have the same descriptor. */
  lemma RegistryIsDistinct(cfg: Config, states: seq<State>, events: seq<Event>, i: nat, a: nat, b: nat)
    requires IsRun(cfg, states, events) && i < |states| && a < b < |states[i].registry|
    ensures states[i].registry[a].socket != states[i].registry[b].socket
  {
    hide Init, Step, QueueLockOk, NodeLockOk, QueueOk, WorkersOk, ConservationOk, StreamsOk, ConnsOk, NotEmptyOk;
    hide NotFullOk;
    RunKeepsInvariant(cfg, states, events, i);
    var s := states[i];
    assert s.registry[a] in s.registry && s.registry[b] in s.registry;
  }

  /** When a communication thread is about to delete its node, no queued record names its socket, and
      a worker that still has anything to do with the node has written its last record whole. */
  lemma DeletedNodeIsUnused(cfg: Config, states: seq<State>, events: seq<Event>, i: nat, c: nat)
    requires IsRun(cfg, states, events) && i < |states| && c < |states[i].conns| && states[i].conns[c].comm.Deregister?
    ensures var (s, k) := (states[i], states[i].conns[c]);
            && (forall j | 0 <= j < |s.queue| :: s.queue[j].socket != k.request.socket)
            && (forall w | 0 <= w < |s.workers| ::
                  match s.workers[w]
                  case Find(rec) => rec.socket != k.request.socket
                  case LockNode(_, node) => node != c
                  case UnlockQueue(_, node) => node != c
                  case SignalNotFull(_, node) => node != c
                  case Send(_, node, _) => node != c
                  case _ => true)
            && k.sent == |Records(k.request)| && k.down == Stream(cfg, k.request)
  {
    hide Init, Step, QueueLockOk, NodeLockOk, SocketsDistinct, RegistryOk, QueueOk, WorkersOk, ConservationOk;
    hide StreamsOk, ConnsOk, NotEmptyOk, NotFullOk;
    hide InFlight, Held, Filter, Stream;
    RunKeepsInvariant(cfg, states, events, i);
    var (s, k) := (states[i], states[i].conns[c]);
    CommSteps.NothingLeftAtTheEnd(cfg, s, c);
    CommSteps.NoWorkerNeeds(s, c);
    CommSteps.AbsentIsFilteredOut(s.queue, k.request.socket);
    AllSentIsStream(cfg, s, c);
  }

  /** The node's mutex is free at the deletion exactly when no worker has still to unlock it; that it
      need not be is shown by `NodeInUse.DeletedWhileLocked`. */
  lemma DeletedNodeIsFreeIff(cfg: Config, states: seq<State>, events: seq<Event>, i: nat, c: nat)
    requires IsRun(cfg, states, events) && i < |states| && c < |states[i].conns| && states[i].conns[c].comm.Deregister?
    ensures states[i].conns[c].holder.None? <==> forall w | 0 <= w < |states[i].workers| ::
            states[i].workers[w] != UnlockNode(c)
  {
    hide Inv, Init, Step, Stream;
    DeletedNodeIsUnused(cfg, states, events, i, c);
    RunKeepsInvariant(cfg, states, events, i);
    HolderIsAtNode(cfg, states[i], c);
  }

  lemma HolderIsAtNode(cfg: Config, s: State, c: nat)
    requires Inv(cfg, s) && c < |s.conns|
    ensures forall w | 0 <= w < |s.workers| :: NodeHeld(s.workers[w]) == Some(c) <==> s.conns[c].holder == Some(w)
    ensures s.conns[c].holder.Some? ==> s.conns[c].holder.value < |s.workers|
  {
    hide QueueLockOk, SocketsDistinct, RegistryOk, QueueOk, WorkersOk, ConservationOk, StreamsOk, ConnsOk;
    hide NotEmptyOk, NotFullOk, NodeHeld;
  }

  lemma AllSentIsStream(cfg: Config, s: State, c: nat)
    requires Inv(cfg, s) && c < |s.conns| && !BeforeStream(s.conns[c].comm)
    requires s.conns[c].sent == |Records(s.conns[c].request)|
    ensures s.conns[c].down == Stream(cfg, s.conns[c].request)
  {
    hide Encode, EncodeAll, BigEndian, Inv, BeforeStream, WrittenInFlight;
    InvStreams(cfg, s, c);
    var k := s.conns[c];
    DownInWords(cfg, k, WrittenInFlight(s, c));
    assert Records(k.request)[..k.sent] == Records(k.request);
  }

  /** Acknowledgements: the communication thread has read whole three-byte messages only, and leaves
      its loop exactly when the client has finished and every byte has been read. */
  lemma AcknowledgementsAreAligned(cfg: Config, states: seq<State>, events: seq<Event>, i: nat, c: nat)
    requires IsRun(cfg, states, events) && i < |states| && c < |states[i].conns|
    ensures var k := states[i].conns[c];
            && k.up == UpBytes(Acks(k.client), k.client.pc.Finished?)
            && k.upRead % 3 == 0 && k.upRead <= |k.up|
            && (k.comm.ReadAck? ==> k.upRead <= 3 * Acks(k.client))
            && (k.comm.Deregister? || k.comm.Close? || k.comm.Gone? ==>
                  k.client.pc.Finished? && k.client.decoded == |k.request.listing| + 1 && k.upRead == |k.up|)
  {
    hide Init, Step, QueueLockOk, NodeLockOk, SocketsDistinct, RegistryOk, QueueOk, WorkersOk, ConservationOk;
    hide StreamsOk, NotEmptyOk, NotFullOk;
    hide ConnOk, UpBytes, Acks;
    RunKeepsInvariant(cfg, states, events, i);
    var k := states[i].conns[c];
    assert ConnOk(cfg, k);
    ConnAligned(cfg, k);
  }

  lemma ConnAligned(cfg: Config, k: Conn)
    requires ConnOk(cfg, k)
    ensures k.up == UpBytes(Acks(k.client), k.client.pc.Finished?)
    ensures k.upRead % 3 == 0 && k.upRead <= |k.up|
    ensures k.comm.ReadAck? ==> k.upRead <= 3 * Acks(k.client)
    ensures k.comm.Deregister? || k.comm.Close? || k.comm.Gone? ==>
              k.client.pc.Finished? && k.client.decoded == |k.request.listing| + 1 && k.upRead == |k.up|
  {
    hide UpBytes, Base, FilesAfter, PayloadOf, Suffix, Acks, GoodRequest;
    CommSteps.UpLength(Acks(k.client), k.client.pc.Finished?);
  }

  /** Between two records the client's block size is what the remainders of all files so far have left of
      the server's: it never grows again and never reaches 0. */
  lemma ClientBlockSize(cfg: Config, states: seq<State>, events: seq<Event>, i: nat, c: nat)
    requires IsRun(cfg, states, events) && i < |states| && c < |states[i].conns|
    requires states[i].conns[c].client.pc.ReadLength?
    ensures var (k, d) := (states[i].conns[c], states[i].conns[c].client.decoded);
            && d < |Records(k.request)| && k.client.block == BlockAfter(cfg, k.request, d)
            && 1 <= k.client.block <= cfg.blockSize && (d == 0 ==> k.client.block == cfg.blockSize)
            && (d > 0 ==>
                  var (before, size) := (BlockAfter(cfg, k.request, d - 1), |PayloadOf(cfg, k.request, d - 1)|);
                  before >= 1 && k.client.block == if size % before == 0 then before else size % before)
  {
    hide Inv, Init, Step, ConnOk, CommOk, BlockLeft, PayloadOf, BlockAfter;
    RunKeepsInvariant(cfg, states, events, i);
    Rooms.ConnIsOk(cfg, states[i], c);
    InvIsGood(cfg, states[i]);
    BetweenRecords(cfg, states[i].conns[c]);
    var (k, d) := (states[i].conns[c], states[i].conns[c].client.decoded);
    StartsWhole(cfg, k.request);
    if d > 0 {
      ClientSteps.BlockAfterNext(cfg, k.request, d - 1);
      LeftIs(BlockAfter(cfg, k.request, d - 1), |PayloadOf(cfg, k.request, d - 1)|);
    }
  }

  lemma InvIsGood(cfg: Config, s: State)
    requires Inv(cfg, s)
    ensures GoodConfig(cfg)
  {
    hide QueueLockOk, NodeLockOk, SocketsDistinct, RegistryOk, QueueOk, WorkersOk, ConservationOk, StreamsOk, ConnsOk;
    hide NotEmptyOk, NotFullOk;
  }

  lemma BetweenRecords(cfg: Config, k: Conn)
    requires ConnOk(cfg, k) && k.client.pc.ReadLength?
    ensures k.client.decoded < |Records(k.request)| && k.client.block == BlockAfter(cfg, k.request, k.client.decoded)
  {
    hide UpOk, CommOk, GoodRequest, FilesAfter, Base, BlockAfter;
  }

  lemma StartsWhole(cfg: Config, r: Request)
    ensures BlockAfter(cfg, r, 0) == cfg.blockSize
  {
  }

  lemma LeftIs(block: nat, size: nat)
    requires block >= 1
    ensures BlockLeft(block, size) == if size % block == 0 then block else size % block
  {
  }

  // ---------------------------------------------------------------- wake-ups

  /** No lost wake-up of a worker: while one sleeps, every queued record is accounted for by an awake
      worker that will look at the queue or by a signal still to be sent. */
  lemma NoLostWorkerWakeUp(cfg: Config, states: seq<State>, events: seq<Event>, i: nat, w: nat)
    requires IsRun(cfg, states, events) && i < |states| && w < |states[i].workers|
    requires states[i].running && states[i].workers[w].Asleep?
    ensures |states[i].queue| <= Sum(states[i].workers, Unpopped) + Sum(states[i].conns, OwesNotEmpty)
  {
    hide Init, Step, Sum, QueueLockOk, NodeLockOk, SocketsDistinct, RegistryOk, QueueOk, WorkersOk;
    hide ConservationOk, StreamsOk, ConnsOk, NotFullOk;
    RunKeepsInvariant(cfg, states, events, i);
  }

  /** Likewise for communication threads and free slots. */
  lemma NoLostInserterWakeUp(cfg: Config, states: seq<State>, events: seq<Event>, i: nat, c: nat)
    requires IsRun(cfg, states, events) && i < |states| && c < |states[i].conns| && states[i].conns[c].comm.Asleep?
    ensures cfg.capacity - |states[i].queue|
         <= Sum(states[i].conns, AwakeInserter) + Sum(states[i].workers, OwesNotFull)
  {
    hide Init, Step, Sum, QueueLockOk, NodeLockOk, SocketsDistinct, RegistryOk, QueueOk, WorkersOk;
    hide ConservationOk, StreamsOk, ConnsOk, NotEmptyOk;
    RunKeepsInvariant(cfg, states, events, i);
  }

  // ---------------------------------------------------------------- shutdown

  /** A worker that has popped a record and not yet given up its connection. */
  predicate Busy(pc: WorkerPc) {
    pc.Find? || pc.LockNode? || pc.UnlockQueue? || pc.SignalNotFull? || pc.Send? || pc.UnlockNode?
  }

  /** ^C does not reach a worker that has popped: it goes on through the same steps, and the only way
      out is to have written its record and unlocked its node. */
  lemma BusyWorkerIgnoresInterrupt(cfg: Config, s: State, w: nat, wake: Option<nat>, n: nat)
    requires Inv(cfg, s) && w < |s.workers| && Busy(s.workers[w])
    ensures var (now, later) := (WorkerStep(cfg, s, w, wake, n), WorkerStep(cfg, s.(running := false), w, wake, n));
            && (now.None? <==> later.None?)
            && (now.Some? ==> later.value == now.value.(running := false)
                              && |now.value.workers| == |s.workers|
                              && (Busy(now.value.workers[w])
                                  || (s.workers[w].UnlockNode? && now.value.workers[w].Top?)))
  {
    hide Encode, OpenConn, FindNode, QueueLockOk, NodeLockOk, SocketsDistinct, RegistryOk, QueueOk, WorkersOk;
    hide ConservationOk, StreamsOk, ConnsOk, NotEmptyOk, NotFullOk;
    if s.workers[w].Find? {
      WorkerSteps.WorkerIsOk(s, w);
      WorkerSteps.LookupSucceeds(s, s.workers[w].rec.socket);
    }
  }

  /** Once every worker has left, none holds a mutex, every stream ends at a record boundary, and sent,
      queued and uninserted records are still the listing. */
  lemma ShutdownCutsAtRecords(cfg: Config, states: seq<State>, events: seq<Event>, i: nat, c: nat)
    requires IsRun(cfg, states, events) && i < |states| && c < |states[i].conns|
    requires forall w | 0 <= w < |states[i].workers| :: states[i].workers[w].Exited?
    ensures var (s, k) := (states[i], states[i].conns[c]);
            && k.holder.None? && (s.lock.Some? ==> s.lock.value.CommThread?)
            && k.sent <= k.inserted <= |Records(k.request)|
            && (Registered(k.comm) ==>
                  Records(k.request) == Records(k.request)[..k.sent] + Filter(s.queue, k.request.socket)
                                      + Records(k.request)[k.inserted..])
            && (!BeforeStream(k.comm) ==>
                  k.down == BigEndian(cfg.blockSize, 4) + EncodeAll(cfg.disk, Records(k.request)[..k.sent]))
  {
    hide Init, Step, Inv, Filter, BigEndian, EncodeAll, Encode, Registered, BeforeStream, Records, InFlight, Held;
    hide WrittenInFlight;
    RunKeepsInvariant(cfg, states, events, i);
    var (s, k) := (states[i], states[i].conns[c]);
    ExitedHoldNothing(cfg, s, c);
    InvConserves(cfg, s, c);
    if Registered(k.comm) {
      SplitAround(Records(k.request), k.sent, k.inserted, Filter(s.queue, k.request.socket));
    }
    if !BeforeStream(k.comm) {
      BytesAreWholeRecords(cfg, states, events, i, c);
    }
  }

  lemma ExitedHoldNothing(cfg: Config, s: State, c: nat)
    requires Inv(cfg, s) && c < |s.conns| && forall w | 0 <= w < |s.workers| :: s.workers[w].Exited?
    ensures s.conns[c].holder.None? && (s.lock.Some? ==> s.lock.value.CommThread?)
    ensures InFlight(s, c) == [] && Held(s, c) == [] && WrittenInFlight(s, c) == 0
  {
    hide SocketsDistinct, RegistryOk, QueueOk, WorkersOk, ConservationOk, StreamsOk, ConnsOk, NotEmptyOk, NotFullOk;
    assert forall w | 0 <= w < |s.workers| :: NodeHeld(s.workers[w]).None? && !WorkerHoldsQueue(s.workers[w]);
  }
}
