/** That the sockets have to hold all files of a request: if they do not, one worker and a few clients
    that ask for empty directories are enough for a run that never serves it. The worker is made to
    stop before the client's full socket, then the queue fills with the other clients' records, and the
    last record finds no room. */
module Jam {
  import opened Wire
  import opened PathMapping
  import opened Protocol
  import opened Invariants
  import opened Frames
  import opened System
  import opened Progress
  import opened Rooms
  import opened EndToEnd
  import opened ShutdownOutcome
  import Termination
  import WorkerSteps
  import CommSteps

  // ---------------------------------------------------------------- the system

  /** A request for an empty directory, on descriptor `socket`. */
  function EmptyRequest(socket: int): Request {
    Request(socket, "/", "out", [])
  }

  lemma EmptyIsRoomy(cfg: Config, socket: int)
    ensures GoodRequest(EmptyRequest(socket)) && Roomy(cfg, EmptyRequest(socket))
  {
    var r := EmptyRequest(socket);
    assert r.directory[0] == '/';
    NoFilesFit(cfg, r);
  }

  lemma NoFilesFit(cfg: Config, r: Request)
    ensures |r.listing| == 0 ==> Roomy(cfg, r)
  {
    hide Base;
    CommSteps.BaseGrows(cfg, r, 0, Min(AcksThatFit(cfg) + 1, |Records(r)|));
  }

  function RequestOf(r: Request, d: nat): Request {
    if d == 0 then r else EmptyRequest(r.socket + d)
  }

  function Start(cfg: Config, r: Request): State {
    State(true, AtTest, [], None, [], [Top], seq(cfg.capacity + 1, d requires 0 <= d => NewConn(RequestOf(r, d))))
  }

  lemma StartIsInitial(cfg: Config, r: Request)
    requires GoodConfig(cfg) && GoodRequest(r)
    ensures Init(cfg, Start(cfg, r))
  {
    hide GoodRequest, NewConn;
    forall d | 0 <= d < cfg.capacity + 1
      ensures GoodRequest(RequestOf(r, d)) && Start(cfg, r).conns[d].request == RequestOf(r, d)
    {
      EmptyIsRoomy(cfg, r.socket + d);
      NewConnAsks(RequestOf(r, d));
    }
  }

  lemma NewConnAsks(r: Request)
    ensures NewConn(r).request == r
  {
  }

  /** The state belongs to a run of this system. */
  ghost predicate Belongs(cfg: Config, r: Request, s: State) {
    && Inv(cfg, s) && RoomsOk(cfg, s) && s.running && |s.workers| == 1 && |s.conns| == cfg.capacity + 1
    && forall d | 0 <= d < |s.conns| :: s.conns[d].request == RequestOf(r, d)
  }

  // ---------------------------------------------------------------- first the client of the large tree

  /** The others have not been accepted, and the last record has not entered the queue. */
  ghost predicate OnlyTheFirst(cfg: Config, r: Request, s: State) {
    && Belongs(cfg, r, s)
    && (forall d | 0 < d < |s.conns| :: s.conns[d].comm.Unborn?)
    && s.conns[0].inserted <= |r.listing|
    && (s.conns[0].inserted == |r.listing| ==>
          s.conns[0].comm.Unlock? || s.conns[0].comm.SignalNotEmpty? || s.conns[0].comm.Lock?)
  }

  /** Everybody but the other clients, and the first communication thread only up to its last record. */
  predicate ForTheFirst(s: State, e: Event) {
    match e
    case Accept(c) => c == 0
    case MainGoesOn => true
    case WorkerRuns(_, _, _) => true
    case ClientRuns(c) => c == 0
    case CommRuns(c, _) => c == 0 && c < |s.conns|
        && !(s.conns[0].comm.Lock? && s.conns[0].inserted == |s.conns[0].request.listing|)
    case _ => false
  }

  lemma WorkerMovesNoComm(cfg: Config, s: State, w: nat, wake: Option<nat>, n: nat, s': State)
    requires w < |s.workers| && WorkerStep(cfg, s, w, wake, n) == Some(s')
    ensures s'.running == s.running && |s'.workers| == |s.workers| && |s'.conns| == |s.conns|
    ensures forall c | 0 <= c < |s.conns| ::
              s'.conns[c].comm == s.conns[c].comm || (s.conns[c].comm.Asleep? && s'.conns[c].comm.Reacquire?)
  {
    hide Encode, OpenConn, FindNode, WorkerSignals, WorkerWrites;
    if s.workers[w].SignalNotFull? {
      SignalMovesComms(s, w, s.workers[w].rec, s.workers[w].node, wake, s');
    } else if s.workers[w].Send? {
      WriteMovesNoComm(cfg, s, w, n, s');
    }
  }

  lemma SignalMovesComms(s: State, w: nat, rec: Record, node: nat, wake: Option<nat>, s': State)
    requires w < |s.workers| && WorkerSignals(s, w, rec, node, wake) == Some(s')
    ensures s'.running == s.running && |s'.workers| == |s.workers| && |s'.conns| == |s.conns|
    ensures forall c | 0 <= c < |s.conns| ::
              s'.conns[c].comm == s.conns[c].comm || (s.conns[c].comm.Asleep? && s'.conns[c].comm.Reacquire?)
  {
  }

  lemma WriteMovesNoComm(cfg: Config, s: State, w: nat, n: nat, s': State)
    requires w < |s.workers| && s.workers[w].Send?
    requires WorkerWrites(cfg, s, w, s.workers[w].rec, s.workers[w].node, s.workers[w].written, n) == Some(s')
    ensures s'.running == s.running && |s'.workers| == |s.workers| && |s'.conns| == |s.conns|
    ensures forall c | 0 <= c < |s.conns| :: s'.conns[c].comm == s.conns[c].comm
  {
    hide Encode, OpenConn;
  }

  lemma CommMovesItself(cfg: Config, s: State, c: nat, wake: Option<nat>, s': State)
    requires c < |s.conns| && CommStep(cfg, s, c, wake) == Some(s')
    ensures s'.running == s.running && |s'.workers| == |s.workers|
    ensures |s'.conns| == |s.conns| && forall d | 0 <= d < |s.conns| && d != c :: s'.conns[d] == s.conns[d]
  {
    hide RemoveNode, BigEndian, Records, CommStep;
    CommSendsNobodyAway(cfg, s, c, wake, s');
    CommStaysWithin(cfg, s, c, wake, s');
  }

  lemma CommSendsNobodyAway(cfg: Config, s: State, c: nat, wake: Option<nat>, s': State)
    requires c < |s.conns| && CommStep(cfg, s, c, wake) == Some(s')
    ensures s'.running == s.running && |s'.workers| == |s.workers|
  {
    hide RemoveNode, BigEndian, Records;
  }

  /** The program counter after an insertion, until the thread comes to insert again. */
  lemma AfterAnInsertion(cfg: Config, s: State, c: nat, wake: Option<nat>, s': State)
    requires c < |s.conns| && CommStep(cfg, s, c, wake) == Some(s') && |s'.conns| == |s.conns|
    requires s'.conns[c].inserted <= |s.conns[c].request.listing|
    requires s.conns[c].comm.Insert? || s.conns[c].comm.Unlock? || s.conns[c].comm.SignalNotEmpty?
    ensures var pc := s'.conns[c].comm; pc.Unlock? || pc.SignalNotEmpty? || pc.Lock?
  {
    hide RemoveNode, BigEndian;
  }

  lemma FirstStep(cfg: Config, r: Request, s: State, e: Event, s': State)
    requires OnlyTheFirst(cfg, r, s) && ForTheFirst(s, e) && Step(cfg, s, e) == Some(s') && Belongs(cfg, r, s')
    ensures OnlyTheFirst(cfg, r, s')
  {
    hide Belongs, Inv, RoomsOk, WorkerStep, CommStep, ClientStep;
    BelongsMeans(cfg, r, s);
    StepStaysWithin(cfg, s, e, s');
    LastIsNotInserted(cfg, s);
    match e
    case WorkerRuns(w, wake, n) =>
      WorkerMovesNoComm(cfg, s, w, wake, n, s');
      WorkerInsertsNothing(cfg, s, w, wake, n, s');
    case CommRuns(c, wake) =>
      CommMovesItself(cfg, s, c, wake, s');
      if s'.conns[0].inserted == |r.listing| {
        AfterAnInsertion(cfg, s, c, wake, s');
      }
    case ClientRuns(c) => WritesThree(s.conns[c]);
    case _ =>
  }

  lemma BelongsMeans(cfg: Config, r: Request, s: State)
    requires Belongs(cfg, r, s)
    ensures |s.conns| == cfg.capacity + 1 && |s.workers| == 1 && s.conns[0].request == r && s.running && Inv(cfg, s)
  {
    hide Inv;
  }

  /** A thread about to insert has a record left. */
  lemma LastIsNotInserted(cfg: Config, s: State)
    requires Inv(cfg, s) && |s.conns| > 0
    ensures s.conns[0].comm.Insert? ==> s.conns[0].inserted <= |s.conns[0].request.listing|
  {
    hide Inv, ConnOk;
    ConnIsOk(cfg, s, 0);
  }

  // ---------------------------------------------------------------- the worker stands still

  /** The worker is held up by the first client, and nothing the other clients do changes that. */
  ghost predicate Stands(cfg: Config, s: State) {
    && |s.workers| == 1 && |s.conns| > 0 && s.workers[0].Send? && s.workers[0].node == 0
    && !HasDownRoom(cfg, s.conns[0], 1) && ClientBlocked(cfg, s.conns[0])
    && (s.conns[0].comm.Asleep? || s.conns[0].comm.Lock?) && s.conns[0].inserted <= |s.conns[0].request.listing|
  }

  /** No event of the kind is enabled. */
  ghost predicate FirstRests(cfg: Config, s: State) {
    forall e | ForTheFirst(s, e) :: !Enabled(cfg, s, e)
  }

  lemma FirstRestIsUnlocked(cfg: Config, r: Request, s: State)
    requires OnlyTheFirst(cfg, r, s) && FirstRests(cfg, s)
    ensures s.lock.None?
  {
    hide Inv, RoomsOk, Enabled, ConnOk, CommOk, Step;
    BelongsMeans(cfg, r, s);
    if s.lock.Some? {
      LockOwner(cfg, s);
      if s.lock == Some(WorkerThread(0)) {
        AllWorkersOk(cfg, s, 0);
        SoleNodeIsFree(cfg, s);
        LocksAreOk(cfg, s);
        var e := WorkerMoves(cfg, s, 0);
      } else {
        var c := s.lock.value.c;
        assert c == 0;
        ConnIsOk(cfg, s, 0);
        var e := CommMoves(cfg, s, 0);
      }
    }
  }

  lemma LockOwner(cfg: Config, s: State)
    requires Inv(cfg, s) && s.lock.Some?
    ensures match s.lock.value
            case WorkerThread(w) => w < |s.workers| && WorkerHoldsQueue(s.workers[w])
            case CommThread(c) => c < |s.conns| && CommHoldsQueue(s.conns[c].comm)
  {
    hide NodeLockOk, SocketsDistinct, RegistryOk, QueueOk, WorkersOk, ConservationOk, StreamsOk, ConnsOk;
    hide NotEmptyOk, NotFullOk;
  }

  lemma LocksAreOk(cfg: Config, s: State)
    requires Inv(cfg, s)
    ensures NodeLockOk(s) && QueueLockOk(s)
  {
    hide NodeLockOk, QueueLockOk, SocketsDistinct, RegistryOk, QueueOk, WorkersOk, ConservationOk, StreamsOk, ConnsOk;
    hide NotEmptyOk, NotFullOk;
  }

  /** The only worker never waits for a node. */
  lemma SoleNodeIsFree(cfg: Config, s: State)
    requires Inv(cfg, s) && |s.workers| == 1
    ensures s.workers[0].LockNode? ==> s.workers[0].node < |s.conns| && s.conns[s.workers[0].node].holder.None?
  {
    hide QueueLockOk, SocketsDistinct, RegistryOk, QueueOk, ConservationOk, StreamsOk, ConnsOk, NotEmptyOk, NotFullOk;
    assert WorkerOk(s, s.workers[0]);
  }

  /** What holds up the first communication thread: a full queue, or its last record. */
  lemma FirstCommRests(cfg: Config, r: Request, s: State)
    requires FieldsFit(cfg) && OnlyTheFirst(cfg, r, s) && FirstRests(cfg, s)
    ensures s.conns[0].comm.Asleep? || (s.conns[0].comm.Lock? && s.conns[0].inserted == |r.listing|)
  {
    hide Inv, RoomsOk, Enabled, ConnOk, FieldsFit, HasDownRoom, Step;
    BelongsMeans(cfg, r, s);
    FirstRestIsUnlocked(cfg, r, s);
    FirstIsAccepted(cfg, r, s);
    ConnIsOk(cfg, s, 0);
    if !CommBlocked(cfg, s, s.conns[0]) {
      var e := CommMoves(cfg, s, 0);
      assert !ForTheFirst(s, e);
    } else {
      HandshakeGoesOn(cfg, s, 0);
      assert ForTheFirst(s, ClientRuns(0));
    }
  }

  lemma FirstIsAccepted(cfg: Config, r: Request, s: State)
    requires OnlyTheFirst(cfg, r, s) && FirstRests(cfg, s)
    ensures !s.conns[0].comm.Unborn?
  {
    hide Inv, RoomsOk;
    BelongsMeans(cfg, r, s);
    MainRestsInAccept(cfg, s) by {
      assert ForTheFirst(s, MainGoesOn);
    }
    assert ForTheFirst(s, Accept(0));
    assert !Enabled(cfg, s, Accept(0));
    hide Belongs;
  }

  lemma MainRestsInAccept(cfg: Config, s: State)
    requires Inv(cfg, s) && s.running && !Enabled(cfg, s, MainGoesOn)
    ensures s.main.InAccept?
  {
    hide QueueLockOk, NodeLockOk, SocketsDistinct, RegistryOk, QueueOk, WorkersOk, ConservationOk, StreamsOk, ConnsOk;
    hide NotEmptyOk, NotFullOk;
  }

  /** The worker cannot have gone to sleep: it would have sent all files, more than the sockets hold. */
  lemma FirstWorkerIsAwake(cfg: Config, r: Request, s: State)
    requires FieldsFit(cfg) && !Roomy(cfg, r) && OnlyTheFirst(cfg, r, s) && FirstRests(cfg, s)
    ensures !s.workers[0].Asleep?
  {
    hide Inv, RoomsOk, FieldsFit, FirstRests, Base, UpFits, HasDownRoom, ConnOk;
    BelongsMeans(cfg, r, s);
    FirstCommRests(cfg, r, s);
    if s.workers[0].Asleep? {
      NothingWaits(cfg, s);
      var k := s.conns[0];
      ConnIsOk(cfg, s, 0);
      FirstRoom(cfg, r, s);
      WaiterReadsNothing(cfg, k);
      ConsumedInReach(cfg, k);
      assert k.sent == |r.listing|;
      RoomBound(cfg, k);
    }
  }

  lemma FirstRoom(cfg: Config, r: Request, s: State)
    requires Belongs(cfg, r, s) && |s.conns| > 0
    ensures UpFits(cfg, s.conns[0]) && HasDownRoom(cfg, s.conns[0], 0)
  {
    hide Inv;
  }

  lemma RoomBound(cfg: Config, k: Conn)
    requires HasDownRoom(cfg, k, 0)
    requires k.client.consumed <= Base(cfg, k.request, Min(AcksThatFit(cfg) + 1, |Records(k.request)|))
    ensures |k.down| <= Reach(cfg, k.request)
  {
  }

  lemma WaiterReadsNothing(cfg: Config, k: Conn)
    requires ConnOk(cfg, k) && (k.comm.Lock? || k.comm.Asleep?)
    ensures k.upRead == 6
  {
    hide ClientOk, GoodRequest, UpBytes;
  }

  /** The only worker sleeps and nobody owes it a signal: everything inserted has been sent. */
  lemma NothingWaits(cfg: Config, s: State)
    requires Inv(cfg, s) && s.running && |s.workers| == 1 && s.workers[0].Asleep? && |s.conns| > 0
    requires s.conns[0].comm.Asleep? || s.conns[0].comm.Lock?
    requires forall d | 0 < d < |s.conns| :: s.conns[d].comm.Unborn?
    ensures !s.conns[0].comm.Asleep? && s.conns[0].sent == s.conns[0].inserted
    ensures |s.conns[0].down| >= Base(cfg, s.conns[0].request, s.conns[0].sent)
  {
    hide Inv, Base, Conserved, DownOk;
    NothingQueued(cfg, s);
    InvConserves(cfg, s);
    LocksAreOk(cfg, s);
    AsleepHoldsNothing(s);
    NothingBetween(s);
    WrittenSoFar(cfg, s.conns[0]);
  }

  lemma InvConserves(cfg: Config, s: State)
    requires Inv(cfg, s) && |s.conns| > 0
    ensures Conserved(s, 0) && s.conns[0].sent <= |Records(s.conns[0].request)|
    ensures DownOk(cfg, s.conns[0], WrittenInFlight(s, 0))
    ensures s.conns[0].inserted > 0 || s.conns[0].comm.Lock? || s.conns[0].comm.Asleep? ==> CommOk(s.conns[0])
  {
    hide QueueLockOk, NodeLockOk, SocketsDistinct, RegistryOk, QueueOk, WorkersOk, ConnsOk, NotEmptyOk, NotFullOk;
    hide Conserved, DownOk, WrittenInFlight, CommOk, ConnOk;
    ConnIsOk(cfg, s, 0);
  }

  lemma AsleepHoldsNothing(s: State)
    requires NodeLockOk(s) && QueueLockOk(s) && |s.workers| == 1 && s.workers[0].Asleep? && |s.conns| > 0
    ensures s.conns[0].holder.None? && InFlight(s, 0) == [] && Held(s, 0) == []
  {
    assert NodeHeld(s.workers[0]).None?;
  }

  lemma NothingBetween(s: State)
    requires |s.conns| > 0 && Conserved(s, 0) && (s.conns[0].comm.Asleep? || s.conns[0].comm.Lock?)
    requires s.queue == [] && InFlight(s, 0) == [] && Held(s, 0) == []
    ensures s.conns[0].sent == s.conns[0].inserted <= |Records(s.conns[0].request)|
  {
    var k := s.conns[0];
    hide InFlight, Held;
    assert |Records(k.request)[k.sent..k.inserted]| == 0;
  }

  lemma WrittenSoFar(cfg: Config, k: Conn)
    requires k.sent <= |Records(k.request)| && !BeforeStream(k.comm)
    ensures forall written | DownOk(cfg, k, written) :: |k.down| >= Base(cfg, k.request, k.sent)
  {
    hide Base, Stream;
  }

  lemma NothingQueued(cfg: Config, s: State)
    requires Inv(cfg, s) && s.running && |s.workers| == 1 && s.workers[0].Asleep? && |s.conns| > 0
    requires s.conns[0].comm.Asleep? || s.conns[0].comm.Lock?
    requires forall d | 0 < d < |s.conns| :: s.conns[d].comm.Unborn?
    ensures s.queue == [] && !s.conns[0].comm.Asleep?
  {
    hide QueueLockOk, NodeLockOk, SocketsDistinct, RegistryOk, QueueOk, WorkersOk, ConservationOk, StreamsOk, ConnsOk;
    SumIsZero(s.conns, OwesNotEmpty);
    SumIsZero(s.workers, Unpopped);
    SumIsZero(s.workers, OwesNotFull);
    if s.conns[0].comm.Asleep? {
      SumIsZero(s.conns, AwakeInserter);
    }
    hide Sum;
    assert WorkerSleeps(s);
  }

  /** So it is held up. */
  lemma FirstStands(cfg: Config, r: Request, s: State)
    requires FieldsFit(cfg) && !Roomy(cfg, r) && OnlyTheFirst(cfg, r, s) && FirstRests(cfg, s)
    ensures Stands(cfg, s) && s.lock.None?
  {
    hide Inv, RoomsOk, FieldsFit, Roomy, Enabled, ConnOk, HasDownRoom, ClientBlocked, WorkerWrites, Step, DownOk;
    hide CommOk;
    BelongsMeans(cfg, r, s);
    FirstRestIsUnlocked(cfg, r, s);
    FirstCommRests(cfg, r, s);
    FirstWorkerIsAwake(cfg, r, s);
    AllWorkersOk(cfg, s, 0);
    LocksAreOk(cfg, s);
    SoleNodeIsFree(cfg, s);
    if !s.workers[0].Send? {
      NotExited(s);
      var e := WorkerMoves(cfg, s, 0);
    } else {
      SenderIsOk(cfg, s, 0);
      assert s.workers[0].node == 0;
      if HasDownRoom(cfg, s.conns[0], 1) {
        WriteIsPossible(cfg, s, 0);
        WriteIsEnabled(cfg, s, 0);
      }
      if !ClientBlocked(cfg, s.conns[0]) {
        ClientIsEnabled(cfg, s, 0);
      }
    }
  }

  lemma NotExited(s: State)
    requires s.running && |s.workers| == 1 && WorkerOk(s, s.workers[0])
    ensures !s.workers[0].Exited? && !s.workers[0].Crashed?
  {
  }

  lemma RunBelongs(cfg: Config, r: Request, states: seq<State>, events: seq<Event>, s: State)
    requires IsRun(cfg, states, events) && s == states[|events|] && states[0] == Start(cfg, r)
    requires s.running && |s.workers| == 1
    ensures Belongs(cfg, r, s)
  {
    hide Init, Inv, Step, RoomsOk, NewConn;
    RunKeepsInvariant(cfg, states, events, |events|);
    RunKeepsRooms(cfg, states, events, |events|);
    RequestsStay(cfg, states, events, |events|);
    forall d | 0 <= d < cfg.capacity + 1
      ensures Start(cfg, r).conns[d].request == RequestOf(r, d)
    {
      NewConnAsks(RequestOf(r, d));
    }
  }

  lemma FirstKeepsPool(cfg: Config, s: State, e: Event, s': State)
    requires Step(cfg, s, e) == Some(s') && ForTheFirst(s, e)
    ensures s'.running == s.running && |s'.workers| == |s.workers| && !IsSpurious(e)
  {
    hide WorkerStep, CommStep, ClientStep;
    match e
    case WorkerRuns(w, wake, n) => WorkerMovesNoComm(cfg, s, w, wake, n, s');
    case CommRuns(c, wake) => CommSendsNobodyAway(cfg, s, c, wake, s');
    case _ =>
  }

  /** The worker, the first client and its thread go on as long as they can. */
  lemma {:induction false} DriveFirst(cfg: Config, r: Request, ss: seq<State>, es: seq<Event>)
    returns (states: seq<State>, events: seq<Event>)
    requires IsRun(cfg, ss, es) && ss[0] == Start(cfg, r) && OnlyTheFirst(cfg, r, ss[|es|])
    ensures IsRun(cfg, states, events) && states[0] == Start(cfg, r)
    ensures OnlyTheFirst(cfg, r, states[|events|]) && FirstRests(cfg, states[|events|])
    decreases Termination.Measure(cfg, ss[|es|])
  {
    hide Init, Inv, Step, ForTheFirst, RoomsOk, Start, Termination.Measure;
    var s := ss[|es|];
    if FirstRests(cfg, s) {
      states, events := ss, es;
    } else {
      var e: Event :| ForTheFirst(s, e) && Enabled(cfg, s, e);
      var s' := Step(cfg, s, e).value;
      FirstKeepsPool(cfg, s, e, s');
      Termination.StepDecreases(cfg, s, e, s');
      Extend(cfg, ss, es, e, s');
      RunBelongs(cfg, r, ss + [s'], es + [e], s');
      FirstStep(cfg, r, s, e, s');
      states, events := DriveFirst(cfg, r, ss + [s'], es + [e]);
    }
  }

  // ---------------------------------------------------------------- then the others

  function InsertedOf(k: Conn): nat {
    k.inserted
  }

  /** The worker stands before the first client, whose connection is `k`; whoever waits for room has found
      the queue full, and all others' records are still in the queue. */
  ghost predicate Filling(cfg: Config, r: Request, k: Conn, s: State) {
    && Belongs(cfg, r, s) && Stands(cfg, s) && s.conns[0] == k
    && Sum(s.conns, InsertedOf) <= |s.queue| + k.inserted
    && (forall d | 0 <= d < |s.conns| && s.conns[d].comm.Asleep? :: |s.queue| >= cfg.capacity)
  }

  predicate ForTheOthers(e: Event) {
    match e
    case Accept(c) => c > 0
    case MainGoesOn => true
    case ClientRuns(c) => c > 0
    case CommRuns(c, _) => c > 0
    case _ => false
  }

  ghost predicate OthersRest(cfg: Config, s: State) {
    forall e | ForTheOthers(e) :: !Enabled(cfg, s, e)
  }

  lemma CommWakesNobody(cfg: Config, s: State, c: nat, wake: Option<nat>, s': State)
    requires c < |s.conns| && CommStep(cfg, s, c, wake) == Some(s')
    requires forall w | 0 <= w < |s.workers| :: !s.workers[w].Asleep?
    ensures s'.workers == s.workers && |s'.queue| >= |s.queue|
    ensures |s'.conns| == |s.conns| ==>
              && |s'.queue| + s.conns[c].inserted == |s.queue| + s'.conns[c].inserted
              && (s'.conns[c].comm.Asleep? && !s.conns[c].comm.Asleep? ==> |s.queue| >= cfg.capacity)
  {
    hide RemoveNode, BigEndian, Records;
  }

  lemma OtherStep(cfg: Config, r: Request, k: Conn, s: State, e: Event, s': State)
    requires Filling(cfg, r, k, s) && ForTheOthers(e) && Step(cfg, s, e) == Some(s') && Belongs(cfg, r, s')
    ensures Filling(cfg, r, k, s')
  {
    hide Belongs, Inv, CommStep, ClientStep, Sum, ClientBlocked, HasDownRoom;
    match e
    case Accept(c) => SumUpdate(s.conns, c, s'.conns[c], InsertedOf);
    case CommRuns(c, wake) =>
      CommWakesNobody(cfg, s, c, wake, s');
      CommMovesItself(cfg, s, c, wake, s');
      SumUpdate(s.conns, c, s'.conns[c], InsertedOf);
      assert s'.conns == s.conns[c := s'.conns[c]];
    case ClientRuns(c) =>
      WritesThree(s.conns[c]);
      SumUpdate(s.conns, c, s'.conns[c], InsertedOf);
    case _ =>
  }

  lemma OthersKeepPool(cfg: Config, s: State, e: Event, s': State)
    requires Step(cfg, s, e) == Some(s') && ForTheOthers(e)
    ensures s'.running == s.running && |s'.workers| == |s.workers| && !IsSpurious(e)
  {
    hide CommStep, ClientStep;
    match e
    case CommRuns(c, wake) => CommSendsNobodyAway(cfg, s, c, wake, s');
    case _ =>
  }

  lemma {:induction false} DriveOthers(cfg: Config, r: Request, k: Conn, ss: seq<State>, es: seq<Event>)
    returns (states: seq<State>, events: seq<Event>)
    requires IsRun(cfg, ss, es) && ss[0] == Start(cfg, r) && Filling(cfg, r, k, ss[|es|])
    ensures IsRun(cfg, states, events) && states[0] == Start(cfg, r)
    ensures Filling(cfg, r, k, states[|events|]) && OthersRest(cfg, states[|events|])
    decreases Termination.Measure(cfg, ss[|es|])
  {
    hide Init, Inv, Step, ForTheOthers, RoomsOk, Start, Stands, Sum, Termination.Measure;
    var s := ss[|es|];
    if OthersRest(cfg, s) {
      states, events := ss, es;
    } else {
      var e: Event :| ForTheOthers(e) && Enabled(cfg, s, e);
      var s' := Step(cfg, s, e).value;
      OthersKeepPool(cfg, s, e, s');
      Termination.StepDecreases(cfg, s, e, s');
      Extend(cfg, ss, es, e, s');
      RunBelongs(cfg, r, ss + [s'], es + [e], s');
      OtherStep(cfg, r, k, s, e, s');
      states, events := DriveOthers(cfg, r, k, ss + [s'], es + [e]);
    }
  }

  lemma OthersRestUnlocked(cfg: Config, r: Request, k: Conn, s: State)
    requires Filling(cfg, r, k, s) && OthersRest(cfg, s)
    ensures s.lock.None?
  {
    hide Inv, RoomsOk, Enabled, ConnOk, CommOk, Step, Sum, HasDownRoom, ClientBlocked;
    BelongsMeans(cfg, r, s);
    if s.lock.Some? {
      LockOwner(cfg, s);
      var c := s.lock.value.c;
      ConnIsOk(cfg, s, c);
      var e := CommMoves(cfg, s, c);
    }
  }

  /** Another client's record is in the queue, or its thread has found the queue full. */
  lemma OtherRests(cfg: Config, r: Request, k: Conn, s: State, d: nat)
    requires FieldsFit(cfg) && Filling(cfg, r, k, s) && OthersRest(cfg, s) && 0 < d < |s.conns|
    ensures s.conns[d].comm.Asleep? || s.conns[d].inserted == 1
  {
    hide Inv, RoomsOk, Enabled, ConnOk, FieldsFit, HasDownRoom, Step, Sum, Stands;
    BelongsMeans(cfg, r, s);
    OthersRestUnlocked(cfg, r, k, s);
    OtherIsAccepted(cfg, r, k, s, d);
    ConnIsOk(cfg, s, d);
    if !CommBlocked(cfg, s, s.conns[d]) {
      var e := CommMoves(cfg, s, d);
    } else {
      HandshakeGoesOn(cfg, s, d);
      assert ForTheOthers(ClientRuns(d));
    }
  }

  lemma OtherIsAccepted(cfg: Config, r: Request, k: Conn, s: State, d: nat)
    requires Filling(cfg, r, k, s) && OthersRest(cfg, s) && 0 < d < |s.conns|
    ensures !s.conns[d].comm.Unborn?
  {
    hide Inv, RoomsOk, Sum, Stands;
    BelongsMeans(cfg, r, s);
    assert ForTheOthers(MainGoesOn);
    MainRestsInAccept(cfg, s);
    assert ForTheOthers(Accept(d));
    assert !Enabled(cfg, s, Accept(d));
    assert forall c | 0 <= c < |s.conns| && c != d :: s.conns[c].request.socket != s.conns[d].request.socket;
    hide Belongs;
  }

  lemma {:induction false} SumAtLeast(xs: seq<Conn>)
    requires xs != [] && forall i | 0 < i < |xs| :: InsertedOf(xs[i]) >= 1
    ensures Sum(xs, InsertedOf) >= InsertedOf(xs[0]) + |xs| - 1
  {
    if |xs| > 1 {
      SumAtLeast(xs[..|xs| - 1]);
    } else {
      assert xs[..0] == [];
    }
  }

  /** So the queue is full. */
  lemma OthersFill(cfg: Config, r: Request, k: Conn, s: State)
    requires FieldsFit(cfg) && Filling(cfg, r, k, s) && OthersRest(cfg, s)
    ensures |s.queue| >= cfg.capacity && s.lock.None?
  {
    hide Inv, RoomsOk, FieldsFit, OthersRest, Stands, Sum;
    OthersRestUnlocked(cfg, r, k, s);
    BelongsMeans(cfg, r, s);
    forall d | 0 < d < |s.conns|
      ensures s.conns[d].comm.Asleep? || s.conns[d].inserted == 1
    {
      OtherRests(cfg, r, k, s, d);
    }
    if |s.queue| < cfg.capacity {
      SumAtLeast(s.conns);
    }
  }

  // ---------------------------------------------------------------- nobody can go on

  lemma {:induction false} SumOfFirst(xs: seq<Conn>)
    requires xs != [] && forall i | 0 < i < |xs| :: InsertedOf(xs[i]) == 0
    ensures Sum(xs, InsertedOf) == InsertedOf(xs[0])
  {
    if |xs| > 1 {
      SumOfFirst(xs[..|xs| - 1]);
    } else {
      assert xs[..0] == [];
    }
  }

  lemma FillingStarts(cfg: Config, r: Request, s: State)
    requires OnlyTheFirst(cfg, r, s) && Stands(cfg, s)
    ensures Filling(cfg, r, s.conns[0], s)
  {
    hide Inv, RoomsOk, Sum, HasDownRoom, ClientBlocked, CommOk;
    BelongsMeans(cfg, r, s);
    forall d | 0 < d < |s.conns|
      ensures InsertedOf(s.conns[d]) == 0
    {
      InsertedSoFar(cfg, s, d);
    }
    SumOfFirst(s.conns);
    if s.conns[0].comm.Asleep? {
      SleeperFoundItFull(cfg, s);
    }
  }

  lemma SleeperFoundItFull(cfg: Config, s: State)
    requires Inv(cfg, s) && |s.workers| == 1 && s.workers[0].Send? && |s.conns| > 0 && s.conns[0].comm.Asleep?
    requires forall d | 0 < d < |s.conns| :: s.conns[d].comm.Unborn?
    ensures |s.queue| >= cfg.capacity
  {
    hide QueueLockOk, NodeLockOk, SocketsDistinct, RegistryOk, QueueOk, WorkersOk, ConservationOk, StreamsOk, ConnsOk;
    hide NotEmptyOk;
    SumIsZero(s.workers, OwesNotFull);
    SumIsZero(s.conns, AwakeInserter);
    hide Sum;
    assert InserterSleeps(s);
  }

  lemma ClientIgnoresThread(cfg: Config, k: Conn)
    requires k.comm.Lock? && ClientBlocked(cfg, k)
    ensures ClientBlocked(cfg, k.(comm := CommPc.Asleep))
  {
    hide FromBigEndian, Suffix, Fits, Place, EndsTransfer, NextBlock, CountDown, ToInt32;
  }

  lemma FindsItFull(cfg: Config, s: State) returns (t: State, u: State)
    requires |s.conns| > 0 && s.conns[0].comm.Lock? && s.lock.None? && |s.queue| >= cfg.capacity
    ensures Step(cfg, s, CommRuns(0, None)) == Some(t) && Step(cfg, t, CommRuns(0, None)) == Some(u)
    ensures u == s.SetComm(0, CommPc.Asleep)
  {
    t := s.(lock := Some(CommThread(0))).SetComm(0, CommPc.Test);
    u := s.SetComm(0, CommPc.Asleep);
    assert t.conns[0 := t.conns[0].(comm := CommPc.Asleep)] == u.conns;
  }

  lemma StillFilling(cfg: Config, r: Request, s: State, u: State)
    requires |s.conns| > 0 && Filling(cfg, r, s.conns[0], s) && |s.queue| >= cfg.capacity && s.conns[0].comm.Lock?
    requires u == s.SetComm(0, CommPc.Asleep) && Belongs(cfg, r, u)
    ensures Filling(cfg, r, u.conns[0], u)
  {
    hide Belongs, Sum, ClientBlocked;
    ClientIgnoresThread(cfg, s.conns[0]);
    SumUpdate(s.conns, 0, u.conns[0], InsertedOf);
  }

  /** The first thread comes too late as well, and the others go on until they rest. */
  lemma FirstFallsAsleep(cfg: Config, r: Request, ss: seq<State>, es: seq<Event>)
    returns (states: seq<State>, events: seq<Event>)
    requires FieldsFit(cfg) && IsRun(cfg, ss, es) && ss[0] == Start(cfg, r)
    requires |ss[|es|].conns| > 0 && Filling(cfg, r, ss[|es|].conns[0], ss[|es|]) && OthersRest(cfg, ss[|es|])
    ensures IsRun(cfg, states, events) && states[0] == Start(cfg, r)
    ensures var s := states[|events|];
            |s.conns| > 0 && s.conns[0].comm.Asleep? && Filling(cfg, r, s.conns[0], s) && OthersRest(cfg, s)
  {
    hide Init, Inv, Step, RoomsOk, Start, Sum, OthersRest, FieldsFit, HasDownRoom, ClientBlocked;
    var s := ss[|es|];
    if s.conns[0].comm.Asleep? {
      states, events := ss, es;
    } else {
      OthersFill(cfg, r, s.conns[0], s);
      var t, u := FindsItFull(cfg, s);
      var e := CommRuns(0, None);
      Extend(cfg, ss, es, e, t);
      Extend(cfg, ss + [t], es + [e], e, u);
      RunBelongs(cfg, r, ss + [t] + [u], es + [e] + [e], u);
      StillFilling(cfg, r, s, u);
      states, events := DriveOthers(cfg, r, u.conns[0], ss + [t] + [u], es + [e] + [e]);
    }
  }

  lemma FullSocketBlocks(cfg: Config, s: State, wake: Option<nat>, n: nat)
    requires Inv(cfg, s) && Stands(cfg, s)
    ensures WorkerStep(cfg, s, 0, wake, n).None?
  {
    hide Inv, OpenConn, Encode, ClientBlocked, ConnOk, DownOk, CommOk;
    SenderIsOk(cfg, s, 0);
    SocketsAreDistinct(cfg, s);
    WorkerSteps.WritesReachNode(s, 0, 0);
  }

  lemma AllRest(cfg: Config, r: Request, s: State)
    requires |s.conns| > 0 && Filling(cfg, r, s.conns[0], s) && OthersRest(cfg, s) && s.conns[0].comm.Asleep?
    ensures Quiescent(cfg, s)
  {
    hide Inv, RoomsOk, Sum, WorkerStep, ClientStep;
    BelongsMeans(cfg, r, s);
    assert ForTheOthers(MainGoesOn);
    MainRestsInAccept(cfg, s);
    forall e: Event | !IsSpurious(e) && !e.Interrupt?
      ensures Step(cfg, s, e).None?
    {
      if ForTheOthers(e) {
        assert !Enabled(cfg, s, e);
      } else {
        OwnEventsRest(cfg, s, e);
      }
    }
  }

  lemma OwnEventsRest(cfg: Config, s: State, e: Event)
    requires Inv(cfg, s) && Stands(cfg, s) && s.conns[0].comm.Asleep? && s.main.InAccept?
    requires !ForTheOthers(e) && !IsSpurious(e) && !e.Interrupt?
    ensures Step(cfg, s, e).None?
  {
    hide Inv, WorkerStep, ClientStep;
    match e
    case WorkerRuns(w, wake, n) => FullSocketBlocks(cfg, s, wake, n);
    case _ =>
  }

  /** A request that does not fit the sockets, the others asking for empty directories, and one worker:
      a run without ^C or spurious wake-ups that comes to rest with the first client not served. */
  lemma CanStandStill(cfg: Config, r: Request) returns (states: seq<State>, events: seq<Event>)
    requires GoodConfig(cfg) && FieldsFit(cfg) && GoodRequest(r) && !Roomy(cfg, r)
    ensures IsRun(cfg, states, events) && Quiescent(cfg, states[|events|])
    ensures var s := states[|events|];
            && s.running && |s.conns| == cfg.capacity + 1 && s.conns[0].request == r
            && (forall d | 0 < d < |s.conns| :: Roomy(cfg, s.conns[d].request))
            && s.conns[0].comm.Asleep? && !s.conns[0].client.pc.Finished?
  {
    hide Inv, Init, Step, Quiescent, RoomsOk, GoodRequest, Roomy, Sum, FieldsFit, FirstRests, OthersRest, Start;
    StartIsInitial(cfg, r);
    states, events := [Start(cfg, r)], [];
    RunBelongs(cfg, r, states, events, Start(cfg, r)) by {
      StartIs(cfg, r);
    }
    StartsWithTheFirst(cfg, r);
    states, events := DriveFirst(cfg, r, states, events);
    FirstStands(cfg, r, states[|events|]);
    FillingStarts(cfg, r, states[|events|]);
    states, events := DriveOthers(cfg, r, states[|events|].conns[0], states, events);
    states, events := FirstFallsAsleep(cfg, r, states, events);
    var s := states[|events|];
    AllRest(cfg, r, s);
    BelongsMeans(cfg, r, s);
    UnfinishedMeans(cfg, s, 0);
    forall d | 0 < d < |s.conns|
      ensures Roomy(cfg, s.conns[d].request)
    {
      EmptyIsRoomy(cfg, r.socket + d);
    }
  }

  lemma StartIs(cfg: Config, r: Request)
    ensures Start(cfg, r).running && |Start(cfg, r).workers| == 1
  {
  }

  lemma StartsWithTheFirst(cfg: Config, r: Request)
    requires Belongs(cfg, r, Start(cfg, r)) && FieldsFit(cfg) && GoodRequest(r) && !Roomy(cfg, r)
    ensures OnlyTheFirst(cfg, r, Start(cfg, r))
  {
    hide Inv, RoomsOk, GoodRequest, Roomy;
    NoFilesFit(cfg, r);
  }
}
