/** Full sockets. A communication thread reads no acknowledgement of a record before it has inserted
    all of them, and a client writes one after every record. So a large enough tree fills first the
    socket towards the server, then the one towards the client, and then the worker that sends, and
    whoever waits for its mutexes, stands still. Here is how large. */
module Rooms {
  import opened Wire
  import opened PathMapping
  import opened Protocol
  import opened Invariants
  import opened System
  import opened Progress
  import WorkerSteps
  import CommSteps
  import ClientSteps

  /** As many record acknowledgements fit into the socket while the server reads none. */
  function AcksThatFit(cfg: Config): nat {
    cfg.upRoom / 3
  }

  function Min(a: nat, b: nat): nat {
    if a < b then a else b
  }

  /** As many bytes can be written to the client while the server reads no record acknowledgement: what
      the client reads before it has to write one too many, and a socket full. */
  function Reach(cfg: Config, r: Request): nat {
    Base(cfg, r, Min(AcksThatFit(cfg) + 1, |Records(r)|)) + cfg.downRoom
  }

  /** All files of the request, everything before the termination record, lie within reach. */
  predicate Roomy(cfg: Config, r: Request) {
    Base(cfg, r, |r.listing|) <= Reach(cfg, r)
  }

  /** As far as a worker has to get before the last record can enter the queue: behind it are the
      record in flight and a full queue. */
  function FilesToSend(cfg: Config, r: Request): nat {
    if |r.listing| < cfg.capacity then 0 else |r.listing| - cfg.capacity
  }

  predicate Enough(cfg: Config, r: Request) {
    Base(cfg, r, FilesToSend(cfg, r)) <= Reach(cfg, r)
  }

  // ---------------------------------------------------------------- a sender that is held up

  /** Neither the worker nor its client nor the communication thread of the connection can go on. */
  ghost predicate HeldUp(cfg: Config, s: State, w: nat) {
    && w < |s.workers| && s.workers[w].Send? && s.workers[w].node < |s.conns|
    && var k := s.conns[s.workers[w].node];
       && !HasDownRoom(cfg, k, 1) && CommBlocked(cfg, s, k)
       && ClientBlocked(cfg, k)
  }

  /** The client has to wait, for bytes or for room. */
  predicate ClientBlocked(cfg: Config, k: Conn) {
    ClientStep(k).Some? ==> ClientStep(k).value.up != k.up && !UpFits(cfg, ClientStep(k).value)
  }

  lemma NotHeldUpMoves(cfg: Config, s: State, w: nat)
    requires Inv(cfg, s) && w < |s.workers| && s.workers[w].Send? && !HeldUp(cfg, s, w)
    ensures SomeoneMoves(cfg, s)
  {
    hide Inv, Step, ConnOk, DownOk, ClientStep, Enabled, CommBlocked, WorkerWrites, Registered, ClientBlocked, CommOk;
    SenderIsOk(cfg, s, w);
    var node := s.workers[w].node;
    var k := s.conns[node];
    if HasDownRoom(cfg, k, 1) {
      WriteIsPossible(cfg, s, w);
      WriteIsEnabled(cfg, s, w);
      assert IsThreadStep(WorkerRuns(w, None, 1));
    } else if !CommBlocked(cfg, s, k) {
      var e := CommMoves(cfg, s, node);
    } else {
      ClientIsEnabled(cfg, s, node);
      assert IsThreadStep(ClientRuns(node));
    }
  }

  lemma WriteIsEnabled(cfg: Config, s: State, w: nat)
    requires w < |s.workers| && s.workers[w].Send?
    requires WorkerWrites(cfg, s, w, s.workers[w].rec, s.workers[w].node, s.workers[w].written, 1).Some?
    ensures Enabled(cfg, s, WorkerRuns(w, None, 1))
  {
    hide WorkerWrites;
  }

  lemma ClientIsEnabled(cfg: Config, s: State, c: nat)
    requires c < |s.conns| && !ClientBlocked(cfg, s.conns[c])
    ensures Enabled(cfg, s, ClientRuns(c))
  {
    hide ClientStep, UpFits;
  }

  lemma SenderIsOk(cfg: Config, s: State, w: nat)
    requires Inv(cfg, s) && w < |s.workers| && s.workers[w].Send?
    ensures GoodConfig(cfg)
    ensures var node := s.workers[w].node;
            && node < |s.conns| && ConnOk(cfg, s.conns[node]) && CommOk(s.conns[node]) && Registered(s.conns[node].comm)
            && s.conns[node].request.socket == s.workers[w].rec.socket
            && s.conns[node].holder == Some(w)
                && s.conns[node].sent < s.conns[node].inserted <= |Records(s.conns[node].request)|
            && Records(s.conns[node].request)[s.conns[node].sent] == s.workers[w].rec.path
            && DownOk(cfg, s.conns[node], s.workers[w].written)
  {
    hide QueueLockOk, SocketsDistinct, RegistryOk, QueueOk, WorkersOk, ConnsOk, NotEmptyOk, NotFullOk, ConnOk, Encode;
    WorkerSteps.WorkerIsOk(s, w);
    WorkerSteps.SendsNextRecord(s, w);
    var node := s.workers[w].node;
    ConnIsOk(cfg, s, node);
    assert DownOk(cfg, s.conns[node], WrittenInFlight(s, node));
  }

  lemma ConnIsOk(cfg: Config, s: State, c: nat)
    requires Inv(cfg, s) && c < |s.conns|
    ensures ConnOk(cfg, s.conns[c]) && CommOk(s.conns[c])
  {
    hide QueueLockOk, NodeLockOk, SocketsDistinct, RegistryOk, QueueOk, WorkersOk, ConservationOk, StreamsOk;
    hide NotEmptyOk, NotFullOk, ConnOk;
    assert ConnOk(cfg, s.conns[c]);
    OnlyComm(cfg, s.conns[c]);
  }

  lemma WriteIsPossible(cfg: Config, s: State, w: nat)
    requires Inv(cfg, s) && w < |s.workers| && s.workers[w].Send? && s.workers[w].node < |s.conns|
    requires HasDownRoom(cfg, s.conns[s.workers[w].node], 1)
    ensures WorkerWrites(cfg, s, w, s.workers[w].rec, s.workers[w].node, s.workers[w].written, 1).Some?
  {
    hide Inv, Encode, OpenConn, DownOk, ConnOk;
    SenderIsOk(cfg, s, w);
    var node := s.workers[w].node;
    SocketsAreDistinct(cfg, s);
    WorkerSteps.WritesReachNode(s, node, 0);
    SomethingLeftToWrite(cfg, s.conns[node], s.workers[w].written);
  }

  lemma SocketsAreDistinct(cfg: Config, s: State)
    requires Inv(cfg, s)
    ensures SocketsDistinct(s)
  {
    hide QueueLockOk, NodeLockOk, SocketsDistinct, RegistryOk, QueueOk, WorkersOk, ConservationOk, StreamsOk, ConnsOk;
    hide NotEmptyOk, NotFullOk;
  }

  lemma SomethingLeftToWrite(cfg: Config, k: Conn, written: nat)
    requires k.sent < k.inserted <= |Records(k.request)| && DownOk(cfg, k, written)
    ensures written < |Encode(cfg.disk, Records(k.request)[k.sent])|
    ensures |k.down| < Base(cfg, k.request, k.sent + 1)
  {
    BelowNext(cfg, k, written);
    hide Base, Stream, Encode;
  }

  /** Where a connection stands whose sender is held up: its records are not all inserted, and the server
      has written as far as it can reach. */
  lemma HeldUpMeans(cfg: Config, s: State, w: nat)
    requires Inv(cfg, s) && FieldsFit(cfg) && HeldUp(cfg, s, w)
    ensures var k := s.conns[s.workers[w].node];
            && (k.comm.Lock? || k.comm.Asleep? || k.comm.Reacquire?)
            && k.sent + 1 <= k.inserted <= |k.request.listing|
            && Reach(cfg, k.request) <= |k.down| < Base(cfg, k.request, k.sent + 1)
  {
    hide Inv, Reach, Base, ClientBlocked, ConnOk, CommOk, FieldsFit, CommBlocked, DownOk, Registered, GoodConfig;
    SenderIsOk(cfg, s, w);
    var k := s.conns[s.workers[w].node];
    SomethingLeftToWrite(cfg, k, s.workers[w].written);
    StuckConn(cfg, s, k, s.workers[w].written);
  }

  lemma StuckConn(cfg: Config, s: State, k: Conn, written: nat)
    requires k.sent < k.inserted <= |Records(k.request)|
    requires |k.down| < Base(cfg, k.request, k.sent + 1) && DownOk(cfg, k, written)
    requires FieldsFit(cfg) && GoodConfig(cfg) && ConnOk(cfg, k) && Registered(k.comm)
    requires !HasDownRoom(cfg, k, 1) && CommBlocked(cfg, s, k)
    requires ClientBlocked(cfg, k)
    ensures k.comm.Lock? || k.comm.Asleep? || k.comm.Reacquire?
    ensures k.inserted <= |k.request.listing| && Reach(cfg, k.request) <= |k.down|
  {
    hide Base, ClientStep, ConnOk, DownOk, Registered, CommBlocked, BeforeStream;
    PastHandshake(cfg, k, written);
    ClientIsNotDone(cfg, k);
    ReadingClientMoves(cfg, k);
    assert ClientStep(k).Some? && !UpFits(cfg, ClientStep(k).value);
    WritesThree(k);
    Overfull(cfg, s, k);
    CommSteps.BaseGrows(cfg, k.request, Min(AcksThatFit(cfg) + 1, |Records(k.request)|), k.client.decoded + 1);
  }

  lemma PastHandshake(cfg: Config, k: Conn, written: nat)
    requires ConnOk(cfg, k) && k.inserted > 0 && k.sent <= |Records(k.request)| && DownOk(cfg, k, written)
    ensures !BeforeStream(k.comm) && !k.comm.ReadBlockAck?
  {
    hide ClientOk, UpOk, GoodRequest, Base, Stream;
  }

  lemma ClientIsNotDone(cfg: Config, k: Conn)
    requires ConnOk(cfg, k) && k.sent < |Records(k.request)| && |k.down| < Base(cfg, k.request, k.sent + 1)
    ensures !k.client.pc.SendEnd? && !k.client.pc.Finished?
  {
    hide Base, UpOk, CommOk, GoodRequest, FilesAfter, PayloadOf, Suffix;
    CommSteps.BaseGrows(cfg, k.request, k.sent + 1, |Records(k.request)|);
  }

  /** Before a full socket a client that reads finds what it waits for. */
  lemma ReadingClientMoves(cfg: Config, k: Conn)
    requires FieldsFit(cfg) && GoodConfig(cfg) && ConnOk(cfg, k) && !HasDownRoom(cfg, k, 1) && Registered(k.comm)
    requires !k.client.pc.SendEnd? && !k.client.pc.Finished?
    ensures ClientStep(k).Some?
    ensures ClientStep(k).value.up != k.up ==>
              k.client.pc.AckDirectory? || k.client.pc.AckBlockSize? || k.client.pc.AckRecord?
  {
    hide UpOk, CommOk, Base, FilesAfter, PayloadOf, Suffix, EndsTransfer, FromBigEndian, Records, Stream, Fits;
    hide GoodRequest, Place;
    hide CountDown, ToInt32;
    if k.client.pc.ReadPath? {
      PathFits(cfg, k.request, k.client.decoded);
    }
  }

  lemma PathFits(cfg: Config, r: Request, i: nat)
    requires GoodRequest(r) && FieldsFit(cfg) && i < |Records(r)|
    ensures |Records(r)[i]| <= cfg.downRoom
  {
    if i < |r.listing| {
      assert Records(r)[i] in r.listing;
    }
  }

  /** The client has an acknowledgement too many, and its communication thread does not read. */
  lemma Overfull(cfg: Config, s: State, k: Conn)
    requires FieldsFit(cfg) && ConnOk(cfg, k) && Registered(k.comm) && CommBlocked(cfg, s, k)
    requires !BeforeStream(k.comm) && !k.comm.ReadBlockAck? && k.inserted <= |Records(k.request)|
    requires k.client.pc.AckDirectory? || k.client.pc.AckBlockSize? || k.client.pc.AckRecord?
    requires |k.up| + 3 > k.upRead + cfg.upRoom
    ensures k.comm.Lock? || k.comm.Asleep? || k.comm.Reacquire?
    ensures k.inserted <= |k.request.listing|
    ensures k.client.pc.AckRecord? && AcksThatFit(cfg) <= k.client.decoded < |Records(k.request)|
    ensures k.client.consumed == Base(cfg, k.request, k.client.decoded + 1)
  {
    hide UpBytes, Base, FilesAfter, PayloadOf, Suffix, GoodRequest;
    CommSteps.UpLength(Acks(k.client), k.client.pc.Finished?);
  }

  /** No handshake stops half way: its communication thread or its client goes on. */
  lemma HandshakeGoesOn(cfg: Config, s: State, c: nat)
    requires Inv(cfg, s) && FieldsFit(cfg) && c < |s.conns| && CommBlocked(cfg, s, s.conns[c])
    ensures var pc := s.conns[c].comm;
            pc.ReadDirectoryAck? || pc.SendBlockSize? || pc.ReadBlockAck? ==> Enabled(cfg, s, ClientRuns(c))
  {
    hide QueueLockOk, NodeLockOk, SocketsDistinct, RegistryOk, QueueOk, WorkersOk, ConservationOk, StreamsOk;
    hide NotEmptyOk, NotFullOk, ConnOk, ClientStep, Base, Records, FieldsFit, HasDownRoom, UpFits, Enabled;
    var k := s.conns[c];
    assert ConnOk(cfg, k);
    if k.comm.SendBlockSize? {
      BlockSizeFits(cfg, s, c);
    }
    if k.comm.ReadDirectoryAck? || k.comm.ReadBlockAck? {
      WaitedForClientIsNotDone(cfg, k);
      if k.comm.ReadBlockAck? {
        HandshakeSaysHello(cfg, s, c);
      }
      ClientMoves(cfg, k);
      AwaitedClientHasRoom(cfg, k);
      ClientIsEnabled(cfg, s, c);
    }
  }

  // ---------------------------------------------------------------- when nobody is held up

  /** Sockets that hold all files of every request, acknowledgements and what was read for them aside,
      hold up no worker, however many there are and whatever the others ask for. */
  lemma RoomyServes(cfg: Config, s: State)
    requires Inv(cfg, s) && FieldsFit(cfg) && forall c | 0 <= c < |s.conns| :: Roomy(cfg, s.conns[c].request)
    ensures SendersServed(cfg, s)
  {
    hide Inv, HeldUp, Base, SomeoneMoves, FieldsFit, Reach, ConnOk, CommOk, DownOk, Registered, GoodConfig;
    forall w | 0 <= w < |s.workers| && s.workers[w].Send?
      ensures SomeoneMoves(cfg, s)
    {
      SenderIsOk(cfg, s, w);
      var k := s.conns[s.workers[w].node];
      if HeldUp(cfg, s, w) {
        HeldUpMeans(cfg, s, w);
        CommSteps.BaseGrows(cfg, k.request, k.sent + 1, |k.request.listing|);
        assert false;
      }
      NotHeldUpMoves(cfg, s, w);
    }
  }

  lemma {:induction false} FilterIsShort(queue: seq<Record>, socket: int)
    ensures |Filter(queue, socket)| <= |queue|
    ensures (forall i | 0 <= i < |queue| :: queue[i].socket == socket) ==> |Filter(queue, socket)| == |queue|
  {
    if queue != [] {
      FilterIsShort(queue[..|queue| - 1], socket);
    }
  }

  /** One worker and one client: it is enough that the worker gets far enough for all records to enter
      the queue. */
  lemma SoleServes(cfg: Config, s: State)
    requires Inv(cfg, s) && FieldsFit(cfg) && |s.workers| == 1 && |s.conns| == 1 && Enough(cfg, s.conns[0].request)
    ensures SendersServed(cfg, s)
  {
    hide Inv, HeldUp, Base, SomeoneMoves, FieldsFit, Reach, ConnOk, CommOk, DownOk, Registered, GoodConfig;
    forall w | 0 <= w < |s.workers| && s.workers[w].Send?
      ensures SomeoneMoves(cfg, s)
    {
      if HeldUp(cfg, s, w) {
        SenderIsOk(cfg, s, w);
        HeldUpMeans(cfg, s, w);
        var k := s.conns[0];
        QueueIsFull(cfg, s);
        CommSteps.BaseGrows(cfg, k.request, k.sent + 1, FilesToSend(cfg, k.request));
        assert false;
      }
      NotHeldUpMoves(cfg, s, w);
    }
  }

  /** The only worker is held up by the only client: the rest of the queue's records are waiting, and so
      is the inserter. */
  lemma QueueIsFull(cfg: Config, s: State)
    requires Inv(cfg, s) && |s.workers| == 1 && |s.conns| == 1 && HeldUp(cfg, s, 0) && s.conns[0].holder == Some(0)
    requires s.conns[0].comm.Lock? || s.conns[0].comm.Asleep? || s.conns[0].comm.Reacquire?
    ensures s.conns[0].inserted >= s.conns[0].sent + 1 + cfg.capacity
  {
    hide NodeLockOk, SocketsDistinct, RegistryOk, WorkersOk, StreamsOk, ConnsOk, NotEmptyOk, Filter, ClientBlocked;
    hide HasDownRoom;
    var k := s.conns[0];
    assert s.lock.None?;
    assert k.comm.Asleep? && InserterSleeps(s);
    SumOfOne(s.conns, AwakeInserter);
    SumOfOne(s.workers, OwesNotFull);
    assert Conserved(s, 0);
    assert forall i | 0 <= i < |s.queue| :: s.queue[i].socket == k.request.socket;
    FilterIsShort(s.queue, k.request.socket);
  }

  lemma SumOfOne<T>(xs: seq<T>, f: T -> nat)
    requires |xs| == 1
    ensures Sum(xs, f) == f(xs[0])
  {
    assert xs[..0] == [];
  }

  // ---------------------------------------------------------------- what is in the sockets

  /** No socket ever holds more than it has room for. */
  ghost predicate RoomsOk(cfg: Config, s: State) {
    forall c | 0 <= c < |s.conns| :: UpFits(cfg, s.conns[c]) && HasDownRoom(cfg, s.conns[c], 0)
  }

  /** What a step does to a connection: it keeps the room, and inserts at `Insert` only. */
  predicate WithinRoom(cfg: Config, k: Conn, k': Conn) {
    && k'.request == k.request
    && (UpFits(cfg, k) && HasDownRoom(cfg, k, 0) ==> UpFits(cfg, k') && HasDownRoom(cfg, k', 0))
    && (k'.inserted == k.inserted || (k.comm.Insert? && k'.inserted == k.inserted + 1))
  }

  lemma WorkerStaysWithin(cfg: Config, s: State, w: nat, wake: Option<nat>, n: nat, s': State)
    requires w < |s.workers| && WorkerStep(cfg, s, w, wake, n) == Some(s')
    ensures |s'.conns| == |s.conns| && forall c | 0 <= c < |s.conns| :: WithinRoom(cfg, s.conns[c], s'.conns[c])
  {
    hide Encode, OpenConn, FindNode;
  }

  lemma CommStaysWithin(cfg: Config, s: State, c: nat, wake: Option<nat>, s': State)
    requires c < |s.conns| && CommStep(cfg, s, c, wake) == Some(s')
    ensures s'.conns == s.conns[c := s'.conns[c]] && WithinRoom(cfg, s.conns[c], s'.conns[c])
  {
    hide RemoveNode, BigEndian, Records, CommSignals, CommInserts, WithinRoom;
    if s.conns[c].comm.SignalNotEmpty? {
      SignalStaysWithin(cfg, s, c, wake, s');
    } else if s.conns[c].comm.Insert? {
      InsertStaysWithin(cfg, s, c, s');
    } else {
      MoveStaysWithin(cfg, s, c, wake, s');
    }
  }

  lemma SignalStaysWithin(cfg: Config, s: State, c: nat, wake: Option<nat>, s': State)
    requires c < |s.conns| && CommSignals(s, c, wake) == Some(s')
    ensures s'.conns == s.conns[c := s'.conns[c]] && WithinRoom(cfg, s.conns[c], s'.conns[c])
  {
    hide Records;
  }

  lemma InsertStaysWithin(cfg: Config, s: State, c: nat, s': State)
    requires c < |s.conns| && s.conns[c].comm.Insert? && CommInserts(s, c) == Some(s')
    ensures s'.conns == s.conns[c := s'.conns[c]] && WithinRoom(cfg, s.conns[c], s'.conns[c])
  {
    hide Records;
  }

  lemma MoveStaysWithin(cfg: Config, s: State, c: nat, wake: Option<nat>, s': State)
    requires c < |s.conns| && CommStep(cfg, s, c, wake) == Some(s') && !s.conns[c].comm.SignalNotEmpty?
             && !s.conns[c].comm.Insert?
    ensures s'.conns == s.conns[c := s'.conns[c]] && WithinRoom(cfg, s.conns[c], s'.conns[c])
  {
    hide RemoveNode, BigEndian;
  }

  lemma ClientStaysWithin(cfg: Config, s: State, c: nat, s': State)
    requires Step(cfg, s, ClientRuns(c)) == Some(s')
    ensures c < |s.conns| && s'.conns == s.conns[c := s'.conns[c]] && WithinRoom(cfg, s.conns[c], s'.conns[c])
  {
    ReadsForward(s.conns[c]);
    WritesThree(s.conns[c]);
    hide ClientStep;
  }

  lemma ReadsForward(k: Conn)
    requires ClientStep(k).Some?
    ensures ClientStep(k).value.client.consumed >= k.client.consumed
  {
    hide FromBigEndian, Suffix, Fits, Place, EndsTransfer, NextBlock, CountDown, ToInt32;
  }

  lemma StepStaysWithin(cfg: Config, s: State, e: Event, s': State)
    requires Step(cfg, s, e) == Some(s')
    ensures |s'.conns| == |s.conns| && forall c | 0 <= c < |s.conns| :: WithinRoom(cfg, s.conns[c], s'.conns[c])
  {
    hide WorkerStep, CommStep, ClientStep;
    match e
    case WorkerRuns(w, wake, n) => WorkerStaysWithin(cfg, s, w, wake, n, s');
    case CommRuns(c, wake) => CommStaysWithin(cfg, s, c, wake, s');
    case ClientRuns(c) => ClientStaysWithin(cfg, s, c, s');
    case _ =>
  }

  lemma {:induction false} RunKeepsRooms(cfg: Config, states: seq<State>, events: seq<Event>, i: nat)
    requires IsRun(cfg, states, events) && i < |states|
    ensures RoomsOk(cfg, states[i])
  {
    hide Init, Step, UpFits, HasDownRoom;
    if i == 0 {
      NewConnsFit(cfg, states[0]);
    } else {
      RunKeepsRooms(cfg, states, events, i - 1);
      assert Step(cfg, states[i - 1], events[i - 1]) == Some(states[i - 1 + 1]);
      StepStaysWithin(cfg, states[i - 1], events[i - 1], states[i]);
    }
  }

  lemma NewConnsFit(cfg: Config, s: State)
    requires Init(cfg, s)
    ensures RoomsOk(cfg, s)
  {
  }

  // ---------------------------------------------------------------- a tree that is too large

  /** While no record acknowledgement is read a client does not read past its reach. */
  lemma ConsumedInReach(cfg: Config, k: Conn)
    requires ConnOk(cfg, k) && UpFits(cfg, k) && k.upRead <= 6
    ensures k.client.consumed <= Base(cfg, k.request, Min(AcksThatFit(cfg) + 1, |Records(k.request)|))
  {
    hide Base, ConnOk, UpFits;
    DecodedFits(cfg, k);
    ConsumedInRecord(cfg, k);
    var (d, n) := (k.client.decoded, |Records(k.request)|);
    CommSteps.BaseGrows(cfg, k.request, Min(d + 1, n), Min(AcksThatFit(cfg) + 1, n));
  }

  lemma DecodedFits(cfg: Config, k: Conn)
    requires ConnOk(cfg, k) && UpFits(cfg, k) && k.upRead <= 6
    ensures k.client.decoded <= AcksThatFit(cfg)
  {
    hide UpBytes, Base, FilesAfter, PayloadOf, Suffix, GoodRequest;
    CommSteps.UpLength(Acks(k.client), k.client.pc.Finished?);
  }

  lemma ConsumedInRecord(cfg: Config, k: Conn)
    requires ConnOk(cfg, k)
    ensures k.client.decoded <= |Records(k.request)|
    ensures k.client.consumed <= Base(cfg, k.request, Min(k.client.decoded + 1, |Records(k.request)|))
  {
    hide Base, FilesAfter, PayloadOf, Suffix, GoodRequest, UpOk, CommOk, EndsTransfer, Place;
    var (d, r) := (k.client.decoded, k.request);
    StartsAtFour(cfg, r);
    CommSteps.BaseGrows(cfg, r, d, Min(d + 1, |Records(r)|));
    if d < |Records(r)| {
      ClientSteps.RecordFields(cfg, r, d);
    }
  }

  lemma StartsAtFour(cfg: Config, r: Request)
    ensures forall i | 0 <= i <= |Records(r)| :: Base(cfg, r, i) >= 4
  {
  }

  /** The last record enters the queue only if enough files have been sent. */
  lemma LastInsertionNeeds(cfg: Config, s: State, c: nat)
    requires Inv(cfg, s) && RoomsOk(cfg, s) && c < |s.conns| && s.conns[c].comm.Insert?
    requires s.conns[c].inserted == |s.conns[c].request.listing|
    ensures Enough(cfg, s.conns[c].request)
  {
    hide Inv, Base, ConnOk, UpFits;
    ConnIsOk(cfg, s, c);
    InserterReadsNothing(cfg, s.conns[c]);
    ConsumedInReach(cfg, s.conns[c]);
    SentBeforeLast(cfg, s, c);
    var k := s.conns[c];
    CommSteps.BaseGrows(cfg, k.request, FilesToSend(cfg, k.request), k.sent);
  }

  lemma InserterReadsNothing(cfg: Config, k: Conn)
    requires ConnOk(cfg, k) && k.comm.Insert?
    ensures k.upRead == 6
  {
    hide ClientOk, GoodRequest, UpBytes;
  }

  lemma SentBeforeLast(cfg: Config, s: State, c: nat)
    requires Inv(cfg, s) && c < |s.conns| && s.conns[c].comm.Insert? && s.conns[c].inserted
             == |s.conns[c].request.listing|
    ensures FilesToSend(cfg, s.conns[c].request) <= s.conns[c].sent <= |s.conns[c].request.listing|
    ensures |s.conns[c].down| >= Base(cfg, s.conns[c].request, s.conns[c].sent)
  {
    hide NodeLockOk, SocketsDistinct, RegistryOk, WorkersOk, ConnsOk, NotEmptyOk, NotFullOk, Filter, Base, Stream;
    var k := s.conns[c];
    assert s.lock == Some(CommThread(c));
    assert Conserved(s, c);
    assert |InFlight(s, c)| <= 1 && Held(s, c) == [];
    FilterIsShort(s.queue, k.request.socket);
    assert DownOk(cfg, k, WrittenInFlight(s, c));
  }

  /** A client whose tree is too large for the sockets is never served, in no run, whoever else is
      there: its records never all enter the queue, so none of its acknowledgements is ever read and the
      client does not finish. */
  lemma {:induction false} NeverServed(cfg: Config, states: seq<State>, events: seq<Event>, i: nat, c: nat)
    requires IsRun(cfg, states, events) && i < |states| && c < |states[0].conns|
    requires !Enough(cfg, states[0].conns[c].request)
    ensures c < |states[i].conns| && states[i].conns[c].request == states[0].conns[c].request
    ensures var k := states[i].conns[c];
            k.inserted <= |k.request.listing| && !AllInserted(k.comm) && !k.client.pc.Finished?
  {
    hide Init, Inv, Step, Enough, ConnOk, CommOk;
    if i > 0 {
      NeverServed(cfg, states, events, i - 1, c);
      assert Step(cfg, states[i - 1], events[i - 1]) == Some(states[i - 1 + 1]);
      RunKeepsInvariant(cfg, states, events, i - 1);
      RunKeepsRooms(cfg, states, events, i - 1);
      StepStaysWithin(cfg, states[i - 1], events[i - 1], states[i]);
      if states[i - 1].conns[c].comm.Insert? && states[i - 1].conns[c].inserted
          == |states[i - 1].conns[c].request.listing| {
        LastInsertionNeeds(cfg, states[i - 1], c);
      }
    } else {
      NothingInsertedAtFirst(cfg, states[0], c);
    }
    RunKeepsInvariant(cfg, states, events, i);
    UnfinishedMeans(cfg, states[i], c);
  }

  lemma NothingInsertedAtFirst(cfg: Config, s: State, c: nat)
    requires Init(cfg, s) && c < |s.conns|
    ensures s.conns[c].inserted == 0
  {
  }

  lemma UnfinishedMeans(cfg: Config, s: State, c: nat)
    requires Inv(cfg, s) && c < |s.conns| && s.conns[c].inserted <= |s.conns[c].request.listing|
    ensures !AllInserted(s.conns[c].comm) && !s.conns[c].client.pc.Finished?
  {
    hide QueueLockOk, NodeLockOk, SocketsDistinct, RegistryOk, QueueOk, WorkersOk, ConnsOk, NotEmptyOk, NotFullOk;
    hide Base, Stream, ConnOk, InFlight, Held, Filter, WrittenInFlight, Encode;
    var k := s.conns[c];
    ConnIsOk(cfg, s, c);
    assert Conserved(s, c) && DownOk(cfg, k, WrittenInFlight(s, c));
    BelowNext(cfg, k, WrittenInFlight(s, c));
    ClientIsNotDone(cfg, k);
  }

  lemma BelowNext(cfg: Config, k: Conn, written: nat)
    requires k.sent < |Records(k.request)| && DownOk(cfg, k, written)
    ensures |k.down| < Base(cfg, k.request, k.sent + 1)
  {
    WorkerSteps.StreamAt(cfg, k.request, k.sent);
    StartsAtFour(cfg, k.request);
    hide Base, Stream, Encode;
  }

  // ---------------------------------------------------------------- deadlock freedom

  /** Every request can be served through sockets of this size. */
  ghost predicate AllRoomy(cfg: Config, s: State) {
    FieldsFit(cfg) && forall c | 0 <= c < |s.conns| :: Roomy(cfg, s.conns[c].request)
  }

  lemma {:induction false} RequestsStay(cfg: Config, states: seq<State>, events: seq<Event>, i: nat)
    requires IsRun(cfg, states, events) && i < |states|
    ensures |states[i].conns| == |states[0].conns|
    ensures forall c | 0 <= c < |states[0].conns| :: states[i].conns[c].request == states[0].conns[c].request
  {
    hide Init, Step;
    if i > 0 {
      RequestsStay(cfg, states, events, i - 1);
      assert Step(cfg, states[i - 1], events[i - 1]) == Some(states[i - 1 + 1]);
      StepStaysWithin(cfg, states[i - 1], events[i - 1], states[i]);
    }
  }

  lemma RunServesSenders(cfg: Config, states: seq<State>, events: seq<Event>, i: nat)
    requires IsRun(cfg, states, events) && i < |states| && AllRoomy(cfg, states[0])
    ensures SendersServed(cfg, states[i])
  {
    hide Init, Step, Inv, Roomy, FieldsFit, SendersServed;
    RequestsStay(cfg, states, events, i);
    RunKeepsInvariant(cfg, states, events, i);
    RoomyServes(cfg, states[i]);
  }

  /** The server runs, some connection is open, and every request fits the sockets: some thread or client
      can take a step. In particular no reachable state with an undelivered record is a deadlock. */
  lemma NoDeadlock(cfg: Config, states: seq<State>, events: seq<Event>, i: nat, c: nat) returns (e: Event)
    requires IsRun(cfg, states, events) && i < |states| && AllRoomy(cfg, states[0])
    requires states[i].running && c < |states[i].conns| && Live(states[i].conns[c].comm)
    ensures IsThreadStep(e) && Enabled(cfg, states[i], e)
  {
    hide Init, Step, Inv, Roomy, FieldsFit, SendersServed, Enabled;
    RunKeepsInvariant(cfg, states, events, i);
    RunServesSenders(cfg, states, events, i);
    e := OnlySocketsBlock(cfg, states[i], c);
  }
}
