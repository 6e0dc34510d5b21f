/** Every step of a communication thread keeps the invariant. */
module CommSteps {
  import opened Wire
  import opened PathMapping
  import opened Protocol
  import opened Invariants
  import opened Frames

  /** A step that neither touches the queue nor opens, closes, registers or removes a connection. */
  lemma PlainStepKeeps(cfg: Config, s: State, c: nat, k': Conn, lock: Option<Thread>, s': State)
    requires Inv(cfg, s) && c < |s.conns| && s' == s.(lock := lock).SetConn(c, k')
    requires var k := s.conns[c];
             && k'.request == k.request && k'.sent == k.sent && k'.inserted == k.inserted && k'.holder == k.holder
             && (Live(k'.comm) <==> Live(k.comm)) && (Registered(k'.comm) <==> Registered(k.comm))
             && OwesNotEmpty(k') == OwesNotEmpty(k)
             && (AwakeInserter(k') >= AwakeInserter(k) || |s.queue| >= cfg.capacity)
             && (k'.comm.Asleep? ==> |s.queue| >= cfg.capacity)
             && (k'.comm.Insert? ==> |s.queue| < cfg.capacity)
    requires CommHoldsQueue(k'.comm) <==> lock == Some(CommThread(c))
    requires lock == s.lock || (s.lock.None? && lock == Some(CommThread(c)))
             || (s.lock == Some(CommThread(c)) && lock.None?)
    requires ConnOk(cfg, k') && StreamsOk(cfg, s')
    ensures Inv(cfg, s')
  {
    hide QueueLockOk, NodeLockOk, SocketsDistinct, RegistryOk, QueueOk, WorkersOk, ConservationOk, StreamsOk;
    hide ConnOk, NotEmptyOk, NotFullOk;
    hide Names, AtNode, Sum, WorkerSleeps, InserterSleeps, NodeHeld, Live, Registered, OwesNotEmpty, AwakeInserter;
    QueueLockKept(s, s', CommThread(c));
    NodeLockKept(s, s');
    DescriptorsKept(s, s');
    QueueKept(cfg, s, s');
    WorkersKept(s, s', -1);
    PlainStepKeepsConservation(s, c, k', lock, s');
    SumUpdate(s.conns, c, k', OwesNotEmpty);
    SumUpdate(s.conns, c, k', AwakeInserter);
    SleepersKept(s, s', -1);
    InsertersKept(s, s', c);
    NotEmptyKept(s, s');
    NotFullKept(cfg, s, s');
  }

  lemma PlainStepKeepsConservation(s: State, c: nat, k': Conn, lock: Option<Thread>, s': State)
    requires ConservationOk(s) && c < |s.conns| && s' == s.(lock := lock).SetConn(c, k')
    requires lock == s.lock || (s.lock.None? && lock == Some(CommThread(c)))
             || (s.lock == Some(CommThread(c)) && lock.None?)
    requires var k := s.conns[c];
             && k'.request == k.request && k'.sent == k.sent && k'.inserted == k.inserted && k'.holder == k.holder
    requires SameDescriptors(s, s')
    ensures ConservationOk(s')
  {
    hide ConservationOk, SameDescriptors, Transmitting;
    ConservationKept(s, s');
  }

  lemma InsertersKept(s: State, s': State, c: nat)
    requires |s'.conns| == |s.conns|
    requires forall d | 0 <= d < |s.conns| && d != c :: s'.conns[d].comm.Asleep? ==> s.conns[d].comm.Asleep?
    ensures InserterSleeps(s') ==> InserterSleeps(s) || (c < |s.conns| && s'.conns[c].comm.Asleep?)
  {
    if InserterSleeps(s') {
      var d :| 0 <= d < |s'.conns| && s'.conns[d].comm.Asleep?;
      assert d != c ==> s.conns[d].comm.Asleep?;
    }
  }

  /** A step that leaves the byte streams alone. */
  lemma QuietStepKeepsStreams(cfg: Config, s: State, c: nat, k': Conn, lock: Option<Thread>, s': State)
    requires StreamsOk(cfg, s) && c < |s.conns| && s' == s.(lock := lock).SetConn(c, k')
    requires var k := s.conns[c];
             && k'.request == k.request && k'.sent == k.sent && k'.inserted == k.inserted && k'.holder == k.holder
             && k'.down == k.down && (BeforeStream(k'.comm) <==> BeforeStream(k.comm))
    ensures StreamsOk(cfg, s')
  {
    hide StreamsOk, BeforeStream;
    StreamsKept(cfg, s, s');
  }

  // ---------------------------------------------------------------- locking, waiting, unlocking

  lemma MoveKeeps(cfg: Config, s: State, c: nat, pc: CommPc, lock: Option<Thread>, s': State)
    requires Inv(cfg, s) && c < |s.conns| && s' == s.(lock := lock).SetComm(c, pc)
    requires var at := s.conns[c].comm;
             || ((at.Lock? || at.Reacquire?) && pc.Test? && s.lock.None? && lock == Some(CommThread(c)))
             || (at.Test? && pc.Asleep? && |s.queue| >= cfg.capacity && lock.None?)
             || (at.Test? && pc.Insert? && |s.queue| < cfg.capacity && lock == s.lock)
             || (at.Unlock? && pc.SignalNotEmpty? && lock.None?)
    ensures Inv(cfg, s')
  {
    hide QueueLockOk, NodeLockOk, SocketsDistinct, RegistryOk, QueueOk, WorkersOk, ConservationOk, StreamsOk;
    hide ConnOk, NotEmptyOk, NotFullOk;
    var k := s.conns[c];
    HoldsExactly(s, c);
    assert ConnOk(cfg, k);
    MovedConnOk(cfg, k, pc);
    QuietStepKeepsStreams(cfg, s, c, k.(comm := pc), lock, s');
    PlainStepKeeps(cfg, s, c, k.(comm := pc), lock, s');
  }

  lemma MovedConnOk(cfg: Config, k: Conn, pc: CommPc)
    requires ConnOk(cfg, k)
    requires (Inserting(k.comm) && Inserting(pc)) || (k.comm.Unlock? && pc.SignalNotEmpty?)
    ensures ConnOk(cfg, k.(comm := pc))
  {
    hide ClientOk, UpBytes, Acks, GoodRequest;
    ClientUntouched(cfg, k, k.(comm := pc));
  }

  lemma HoldsExactly(s: State, c: nat)
    requires QueueLockOk(s) && c < |s.conns|
    ensures CommHoldsQueue(s.conns[c].comm) <==> s.lock == Some(CommThread(c))
  {
  }

  // ---------------------------------------------------------------- reading acknowledgements

  lemma {:induction false} UpLength(n: nat, finished: bool)
    ensures |UpBytes(n, finished)| == 3 * n + (if finished then 3 else 0)
  {
    if n != 0 {
      UpLength(n - 1, finished);
    }
  }

  /** The client's bytes, read three at a time from an aligned place, are one whole message. */
  lemma {:induction false} UpMessage(n: nat, finished: bool, j: nat)
    requires 3 * j + 3 <= |UpBytes(n, finished)|
    ensures UpBytes(n, finished)[3 * j..3 * j + 3] == if j < n then ACK_MSG else TERM_MSG
    ensures j < n || (j == n && finished)
  {
    UpLength(n, finished);
    if n != 0 {
      if j == 0 {
      } else {
        UpLength(n - 1, finished);
        UpMessage(n - 1, finished, j - 1);
        var up := UpBytes(n, finished);
        var a := 3 * (j - 1);
        assert up[3..|up|] == UpBytes(n - 1, finished);
        SliceOfSlice(up, 3, |up|, a, a + 3);
        assert 3 + a == 3 * j && up[3 + a..3 + (a + 3)] == up[3 * j..3 * j + 3];
      }
    }
  }

  lemma ReadConnOk(cfg: Config, k: Conn, pc: CommPc)
    requires ConnOk(cfg, k) && k.upRead + 3 <= |k.up|
    requires k.comm.ReadDirectoryAck? || k.comm.ReadBlockAck? || k.comm.ReadAck?
    requires pc == if k.comm.ReadDirectoryAck? then SendBlockSize
                   else if k.comm.ReadBlockAck? then CommPc.Lock
                   else if k.up[k.upRead..k.upRead + 3] == TERM_MSG then Deregister else ReadAck
    ensures ConnOk(cfg, k.(comm := pc, upRead := k.upRead + 3))
  {
    hide ClientOk, UpBytes, GoodRequest, Acks;
    var k' := k.(comm := pc, upRead := k.upRead + 3);
    ClientUntouched(cfg, k, k');
    ReadMessage(k.client, k.up, k.upRead);
  }

  lemma ReadMessage(cl: Client, up: string, read: nat)
    requires up == UpBytes(Acks(cl), cl.pc.Finished?) && read % 3 == 0 && read + 3 <= |up|
    ensures read + 3 <= 3 * Acks(cl) ==> up[read..read + 3] != TERM_MSG
    ensures read + 3 > 3 * Acks(cl) ==> up[read..read + 3] == TERM_MSG && cl.pc.Finished? && read + 3 == |up|
  {
    hide UpBytes, Acks;
    UpLength(Acks(cl), cl.pc.Finished?);
    assert 3 * (read / 3) == read;
    UpMessage(Acks(cl), cl.pc.Finished?, read / 3);
    assert ACK_MSG[0] != TERM_MSG[0];
  }

  lemma ReadKeeps(cfg: Config, s: State, c: nat, pc: CommPc, s': State)
    requires Inv(cfg, s) && c < |s.conns|
    requires var k := s.conns[c];
             && k.upRead + 3 <= |k.up| && s' == s.SetConn(c, k.(comm := pc, upRead := k.upRead + 3))
             && (k.comm.ReadDirectoryAck? || k.comm.ReadBlockAck? || k.comm.ReadAck?)
             && pc == if k.comm.ReadDirectoryAck? then SendBlockSize
                      else if k.comm.ReadBlockAck? then CommPc.Lock
                      else if k.up[k.upRead..k.upRead + 3] == TERM_MSG then Deregister else ReadAck
    ensures Inv(cfg, s')
  {
    hide QueueLockOk, NodeLockOk, SocketsDistinct, RegistryOk, QueueOk, WorkersOk, ConservationOk, StreamsOk;
    hide ConnOk, NotEmptyOk, NotFullOk;
    var k := s.conns[c];
    HoldsExactly(s, c);
    assert ConnOk(cfg, k);
    ReadConnOk(cfg, k, pc);
    QuietStepKeepsStreams(cfg, s, c, s'.conns[c], s.lock, s');
    PlainStepKeeps(cfg, s, c, s'.conns[c], s.lock, s');
  }

  lemma StreamStarts(cfg: Config, r: Request)
    ensures Base(cfg, r, 0) == 4 && Stream(cfg, r)[..4] == BigEndian(cfg.blockSize, 4)
  {
    hide EncodeAll, BigEndian;
    assert Records(r)[..0] == [];
    assert EncodeAll(cfg.disk, []) == "" by {
      EmptyEncodes(cfg.disk);
    }
  }

  lemma EmptyEncodes(disk: map<string, string>)
    ensures EncodeAll(disk, []) == ""
  {
  }

  lemma BlockSizeKeeps(cfg: Config, s: State, c: nat, s': State)
    requires Inv(cfg, s) && c < |s.conns| && s.conns[c].comm.SendBlockSize?
    requires var k := s.conns[c];
             s' == s.SetConn(c, k.(comm := ReadBlockAck, down := k.down + BigEndian(cfg.blockSize, 4)))
    ensures Inv(cfg, s')
  {
    hide QueueLockOk, NodeLockOk, SocketsDistinct, RegistryOk, QueueOk, WorkersOk, ConservationOk, StreamsOk;
    hide ConnOk, NotEmptyOk, NotFullOk, BigEndian;
    var k, k' := s.conns[c], s'.conns[c];
    HoldsExactly(s, c);
    assert ConnOk(cfg, k);
    NothingSentYet(cfg, s, c);
    BlockSizeKeepsStreams(cfg, s, c, s');
    BlockSizeConnOk(cfg, k, k');
    PlainStepKeeps(cfg, s, c, k', s.lock, s');
  }

  lemma NothingSentYet(cfg: Config, s: State, c: nat)
    requires StreamsOk(cfg, s) && ConservationOk(s) && c < |s.conns| && BeforeStream(s.conns[c].comm)
    ensures s.conns[c].down == "" && s.conns[c].inserted == s.conns[c].sent == 0
  {
    assert Conserved(s, c);
    assert DownOk(cfg, s.conns[c], WrittenInFlight(s, c));
  }

  lemma BlockSizeConnOk(cfg: Config, k: Conn, k': Conn)
    requires ConnOk(cfg, k) && k.comm.SendBlockSize? && k.inserted == 0
    requires k' == k.(comm := ReadBlockAck, down := k.down + BigEndian(cfg.blockSize, 4))
    ensures ConnOk(cfg, k')
  {
    ClientUntouched(cfg, k, k');
    hide ClientOk, UpBytes, GoodRequest, Acks, BigEndian;
  }

  lemma BlockSizeKeepsStreams(cfg: Config, s: State, c: nat, s': State)
    requires StreamsOk(cfg, s) && c < |s.conns| && s.conns[c].comm.SendBlockSize? && s.conns[c].sent == 0
    requires var k := s.conns[c];
             s' == s.SetConn(c, k.(comm := ReadBlockAck, down := k.down + BigEndian(cfg.blockSize, 4)))
    ensures StreamsOk(cfg, s')
  {
    var k := s.conns[c];
    StreamStarts(cfg, k.request);
    assert DownOk(cfg, k, WrittenInFlight(s, c));
    hide BigEndian, Base, Stream, Encode;
    forall d | 0 <= d < |s.conns|
      ensures DownOk(cfg, s'.conns[d], WrittenInFlight(s', d))
    {
      assert DownOk(cfg, s.conns[d], WrittenInFlight(s, d));
      assert WrittenInFlight(s', d) == WrittenInFlight(s, d);
    }
  }

  // ---------------------------------------------------------------- inserting

  lemma InsertKeepsQueue(cfg: Config, s: State, c: nat, s': State)
    requires QueueOk(cfg, s) && QueueLockOk(s) && c < |s.conns| && s.conns[c].comm.Insert? && |s'.conns| == |s.conns|
    requires exists path :: s'.queue == s.queue + [Record(s.conns[c].request.socket, path)]
    requires !s'.conns[c].comm.Insert? && forall d | 0 <= d < |s.conns| && d != c :: s'.conns[d] == s.conns[d]
    requires SameDescriptors(s, s') && forall socket :: Names(s, socket) ==> Names(s', socket)
    ensures QueueOk(cfg, s')
  {
    assert Names(s, s.conns[c].request.socket);
    hide Names;
    forall d | 0 <= d < |s'.conns|
      ensures !s'.conns[d].comm.Insert?
    {
      HoldsExactly(s, c);
      HoldsExactly(s, d);
    }
  }

  lemma InsertKeepsConservation(s: State, c: nat, s': State)
    requires ConservationOk(s) && SocketsDistinct(s) && c < |s.conns| && s.conns[c].comm.Insert?
    requires var k := s.conns[c];
             && k.inserted < |Records(k.request)|
             && s' == s.(queue := s.queue + [Record(k.request.socket, Records(k.request)[k.inserted])])
                       .SetConn(c, k.(comm := Unlock, inserted := k.inserted + 1))
    ensures ConservationOk(s')
  {
    var k := s.conns[c];
    forall d | 0 <= d < |s.conns|
      ensures Conserved(s', d)
    {
      assert Conserved(s, d);
      var socket := s.conns[d].request.socket;
      assert s'.queue[..|s'.queue| - 1] == s.queue;
      assert Registered(s.conns[d].comm) && d != c ==> socket != k.request.socket;
      hide SocketsDistinct, Registered, Transmitting;
      assert InFlight(s', d) == InFlight(s, d) && Held(s', d) == Held(s, d);
      if d == c {
        var R := Records(k.request);
        assert R[k.sent..k.inserted + 1] == R[k.sent..k.inserted] + [R[k.inserted]];
      }
    }
  }

  lemma InsertKeeps(cfg: Config, s: State, c: nat, s': State)
    requires Inv(cfg, s) && c < |s.conns| && s.conns[c].comm.Insert?
    requires CommInserts(s, c) == Some(s')
    ensures Inv(cfg, s')
  {
    hide QueueLockOk, NodeLockOk, SocketsDistinct, RegistryOk, QueueOk, WorkersOk, ConservationOk, StreamsOk;
    hide ConnOk, NotEmptyOk, NotFullOk;
    hide Names, AtNode, Sum, WorkerSleeps, InserterSleeps, NodeHeld;
    var k, k' := s.conns[c], s'.conns[c];
    QueueLockKept(s, s', CommThread(c)) by {
      HoldsExactly(s, c);
    }
    NodeLockKept(s, s');
    DescriptorsKept(s, s');
    InsertKeepsQueue(cfg, s, c, s');
    NobodyElseHolds(s, c);
    WorkersKept(s, s', -1);
    InsertKeepsConservation(s, c, s');
    StreamsKept(cfg, s, s');
    assert ConnOk(cfg, k);
    InsertConnOk(cfg, k, k');
    SumUpdate(s.conns, c, k', OwesNotEmpty);
    SumUpdate(s.conns, c, k', AwakeInserter);
    SleepersKept(s, s', -1);
    InsertersKept(s, s', c);
    NotEmptyKept(s, s');
    NotFullKept(cfg, s, s');
  }

  lemma NobodyElseHolds(s: State, c: nat)
    requires QueueLockOk(s) && c < |s.conns| && CommHoldsQueue(s.conns[c].comm)
    ensures forall v | 0 <= v < |s.workers| :: !WorkerHoldsQueue(s.workers[v])
  {
  }

  lemma InsertConnOk(cfg: Config, k: Conn, k': Conn)
    requires ConnOk(cfg, k) && k.comm.Insert? && k' == k.(comm := Unlock, inserted := k.inserted + 1)
    ensures ConnOk(cfg, k')
  {
    hide ClientOk, UpBytes, GoodRequest, Acks;
    ClientUntouched(cfg, k, k');
  }

  // ---------------------------------------------------------------- signalling

  lemma SignalConnOk(cfg: Config, k: Conn, k': Conn)
    requires ConnOk(cfg, k) && k.comm.SignalNotEmpty? && k.inserted <= |Records(k.request)|
    requires k' == k.(comm := if k.inserted < |Records(k.request)| then CommPc.Lock else ReadAck)
    ensures ConnOk(cfg, k')
  {
    ClientUntouched(cfg, k, k');
    UpLength(Acks(k.client), k.client.pc.Finished?);
    hide UpBytes, GoodRequest, Base, FilesAfter, PayloadOf, EndsTransfer, Suffix, Place;
  }

  lemma SignalKeepsWakeUps(cfg: Config, s: State, c: nat, wake: Option<nat>, s': State)
    requires NotEmptyOk(s) && NotFullOk(cfg, s) && c < |s.conns| && s.conns[c].comm.SignalNotEmpty?
    requires CommSignals(s, c, wake) == Some(s')
    ensures NotEmptyOk(s') && NotFullOk(cfg, s')
  {
    hide NotFullOk, Sum, InserterSleeps;
    SumUpdate(s.conns, c, s'.conns[c], OwesNotEmpty);
    SumUpdate(s.conns, c, s'.conns[c], AwakeInserter);
    InsertersKept(s, s', c);
    if wake.Some? {
      var w := wake.value;
      SumUpdate(s.workers, w, s'.workers[w], Unpopped);
      SumUpdate(s.workers, w, s'.workers[w], OwesNotFull);
      SleepersKept(s, s', -1);
      NotEmptyKept(s, s');
    }
    NotFullKept(cfg, s, s');
  }

  lemma SignalKeepsRecords(cfg: Config, s: State, c: nat, s': State)
    requires ConservationOk(s) && StreamsOk(cfg, s) && c < |s.conns| && s.conns[c].comm.SignalNotEmpty?
    requires |s'.conns| == |s.conns| && s'.conns == s.conns[c := s.conns[c].(comm := s'.conns[c].comm)]
             && (s'.conns[c].comm.Lock? || s'.conns[c].comm.ReadAck?)
    requires s'.lock == s.lock && s'.queue == s.queue && s'.registry == s.registry && OtherWorkersStay(s, s', -1)
    ensures ConservationOk(s') && StreamsOk(cfg, s')
  {
    hide ConservationOk, StreamsOk;
    ConservationKept(s, s');
    StreamsKept(cfg, s, s');
  }

  lemma SignalKeeps(cfg: Config, s: State, c: nat, wake: Option<nat>, s': State)
    requires Inv(cfg, s) && c < |s.conns| && s.conns[c].comm.SignalNotEmpty?
    requires CommSignals(s, c, wake) == Some(s')
    ensures Inv(cfg, s')
  {
    hide QueueLockOk, NodeLockOk, SocketsDistinct, RegistryOk, QueueOk, WorkersOk, ConservationOk, StreamsOk;
    hide ConnOk, NotEmptyOk, NotFullOk;
    hide Names, AtNode, Sum, WorkerSleeps, InserterSleeps;
    var k, k' := s.conns[c], s'.conns[c];
    QueueLockKept(s, s', CommThread(c)) by {
      HoldsExactly(s, c);
    }
    NodeLockKept(s, s');
    DescriptorsKept(s, s');
    QueueKept(cfg, s, s');
    WorkersKept(s, s', -1);
    SignalKeepsRecords(cfg, s, c, s');
    assert ConnOk(cfg, k);
    InsertedWithin(s, c);
    SignalConnOk(cfg, k, k');
    SignalKeepsWakeUps(cfg, s, c, wake, s');
  }

  lemma InsertedWithin(s: State, c: nat)
    requires ConservationOk(s) && c < |s.conns|
    ensures s.conns[c].sent <= s.conns[c].inserted <= |Records(s.conns[c].request)|
  {
    assert Conserved(s, c);
  }

  // ---------------------------------------------------------------- accepting, registering, removing, closing

  /** A step that only opens, registers, removes or closes connection `c`. */
  lemma LifeStepKeeps(cfg: Config, s: State, c: nat, pc: CommPc, registry: seq<RegistryNode>, s': State)
    requires Inv(cfg, s) && c < |s.conns| && s' == s.(registry := registry).SetComm(c, pc)
    requires var k, k' := s.conns[c], s'.conns[c];
             && !CommHoldsQueue(k.comm) && !CommHoldsQueue(pc) && (BeforeStream(pc) <==> BeforeStream(k.comm))
             && OwesNotEmpty(k') == OwesNotEmpty(k) && AwakeInserter(k') == AwakeInserter(k) && !pc.Asleep?
    requires SocketsDistinct(s') && RegistryOk(s') && QueueOk(cfg, s') && WorkersOk(s') && ConservationOk(s')
             && ConnOk(cfg, s'.conns[c])
    ensures Inv(cfg, s')
  {
    hide QueueLockOk, NodeLockOk, SocketsDistinct, RegistryOk, QueueOk, WorkersOk, ConservationOk, StreamsOk;
    hide ConnOk, NotEmptyOk, NotFullOk;
    hide Sum, WorkerSleeps, InserterSleeps, BeforeStream, OwesNotEmpty, AwakeInserter;
    var k' := s'.conns[c];
    QueueLockKept(s, s', CommThread(c)) by {
      HoldsExactly(s, c);
    }
    NodeLockKept(s, s');
    StreamsKept(cfg, s, s');
    SumUpdate(s.conns, c, k', OwesNotEmpty);
    SumUpdate(s.conns, c, k', AwakeInserter);
    SleepersKept(s, s', -1);
    InsertersKept(s, s', c);
    NotEmptyKept(s, s');
    NotFullKept(cfg, s, s');
  }

  /** A new registration cannot capture a record that is already queued or popped. */
  lemma NothingAwaitsNewcomer(cfg: Config, s: State, c: nat)
    requires Inv(cfg, s) && c < |s.conns| && Live(s.conns[c].comm) && !Registered(s.conns[c].comm)
    ensures InFlight(s, c) == [] && Held(s, c) == [] && Filter(s.queue, s.conns[c].request.socket) == []
  {
    hide RegistryOk, ConservationOk, StreamsOk, ConnsOk, NotEmptyOk, NotFullOk, Filter, Registered, Live;
    var socket := s.conns[c].request.socket;
    NewcomerIsNotNamed(s, c);
    AbsentIsFilteredOut(s.queue, socket);
    if s.conns[c].holder.Some? {
      var w := s.conns[c].holder.value;
      assert WorkerOk(s, s.workers[w]);
      assert NodeHeld(s.workers[w]) == Some(c);
    }
    if s.lock.Some? && s.lock.value.WorkerThread? {
      assert WorkerOk(s, s.workers[s.lock.value.w]);
    }
  }

  lemma NewcomerIsNotNamed(s: State, c: nat)
    requires SocketsDistinct(s) && c < |s.conns| && Live(s.conns[c].comm) && !Registered(s.conns[c].comm)
    ensures !Names(s, s.conns[c].request.socket)
  {
  }

  lemma {:induction false} AbsentIsFilteredOut(queue: seq<Record>, socket: int)
    ensures Filter(queue, socket) == [] <==> forall i | 0 <= i < |queue| :: queue[i].socket != socket
  {
    if queue != [] {
      AbsentIsFilteredOut(queue[..|queue| - 1], socket);
    }
  }

  lemma RegisterKeepsNames(s: State, c: nat, pc: CommPc, registry: seq<RegistryNode>, s': State)
    requires c < |s.conns| && s' == s.(registry := registry).SetComm(c, pc)
             && (Registered(s.conns[c].comm) ==> Registered(pc))
    ensures forall socket :: Names(s, socket) ==> Names(s', socket)
    ensures forall rec, node :: AtNode(s, rec, node) ==> AtNode(s', rec, node)
  {
    hide Registered;
    forall socket | Names(s, socket)
      ensures Names(s', socket)
    {
      var d :| 0 <= d < |s.conns| && Registered(s.conns[d].comm) && s.conns[d].request.socket == socket;
      assert Registered(s'.conns[d].comm);
    }
  }

  lemma RegisterKeepsRegistry(s: State, c: nat, s': State)
    requires SocketsDistinct(s) && RegistryOk(s) && c < |s.conns| && s.conns[c].comm.Register?
    requires s' == s.(registry := s.registry + [RegistryNode(s.conns[c].request.socket, c)])
                    .SetComm(c, ReadDirectoryAck)
    ensures SocketsDistinct(s') && RegistryOk(s')
  {
    assert RegistryNode(s.conns[c].request.socket, c) !in s.registry;
    forall d | 0 <= d < |s'.conns| && Registered(s'.conns[d].comm)
      ensures RegistryNode(s'.conns[d].request.socket, d) in s'.registry
    {
      if d != c {
        assert RegistryNode(s.conns[d].request.socket, d) in s.registry;
      }
    }
  }

  lemma RegisterKeepsConservation(cfg: Config, s: State, c: nat, s': State)
    requires Inv(cfg, s) && c < |s.conns| && s.conns[c].comm.Register?
    requires s'.conns == s.conns[c := s.conns[c].(comm := ReadDirectoryAck)]
    requires s'.lock == s.lock && s'.queue == s.queue && s'.workers == s.workers
    ensures ConservationOk(s')
  {
    hide QueueLockOk, NodeLockOk, SocketsDistinct, RegistryOk, QueueOk, WorkersOk, StreamsOk, ConnsOk, NotEmptyOk;
    hide NotFullOk, Filter;
    NothingAwaitsNewcomer(cfg, s, c);
    NothingSentYet(cfg, s, c);
    forall d | 0 <= d < |s.conns|
      ensures Conserved(s', d)
    {
      assert Conserved(s, d);
      hide Registered, Transmitting;
      assert InFlight(s', d) == InFlight(s, d) && Held(s', d) == Held(s, d);
    }
  }

  lemma RegisterKeeps(cfg: Config, s: State, c: nat, s': State)
    requires Inv(cfg, s) && c < |s.conns| && s.conns[c].comm.Register?
    requires s' == s.(registry := s.registry + [RegistryNode(s.conns[c].request.socket, c)])
                    .SetComm(c, ReadDirectoryAck)
    ensures Inv(cfg, s')
  {
    hide QueueLockOk, NodeLockOk, SocketsDistinct, RegistryOk, QueueOk, WorkersOk, ConservationOk, StreamsOk;
    hide ConnOk, NotEmptyOk, NotFullOk;
    hide Names, AtNode;
    RegisterKeepsConservation(cfg, s, c, s');
    RegisterKeepsRegistry(s, c, s');
    RegisterKeepsNames(s, c, ReadDirectoryAck, s'.registry, s');
    QueueKept(cfg, s, s');
    WorkersKept(s, s', -1);
    assert ConnOk(cfg, s.conns[c]);
    LifeConnOk(cfg, s.conns[c], ReadDirectoryAck);
    LifeStepKeeps(cfg, s, c, ReadDirectoryAck, s'.registry, s');
  }

  lemma LifeConnOk(cfg: Config, k: Conn, pc: CommPc)
    requires ConnOk(cfg, k)
    requires (k.comm.Unborn? && pc.Register?) || (k.comm.Register? && pc.ReadDirectoryAck?)
          || (k.comm.Deregister? && pc.Close?) || (k.comm.Close? && pc.Gone?)
    ensures ConnOk(cfg, k.(comm := pc))
  {
    hide ClientOk, UpBytes, Acks, GoodRequest;
    ClientUntouched(cfg, k, k.(comm := pc));
  }

  // ---------------------------------------------------------------- leaving

  lemma {:induction false} BaseGrows(cfg: Config, r: Request, i: nat, j: nat)
    requires i <= j <= |Records(r)|
    ensures Base(cfg, r, i) <= Base(cfg, r, j)
    ensures i < j ==> Base(cfg, r, i) + |Encode(cfg.disk, Records(r)[i])| <= Base(cfg, r, j)
    decreases j - i
  {
    hide Encode, EncodeAll;
    if i < j {
      RecordAt(cfg.disk, Records(r), i);
      BaseGrows(cfg, r, i + 1, j);
    }
  }

  /** Once the client has consumed everything, everything has been sent. */
  lemma FinishedMeansAllSent(cfg: Config, s: State, c: nat)
    requires StreamsOk(cfg, s) && c < |s.conns|
    requires var k := s.conns[c]; !BeforeStream(k.comm) && Base(cfg, k.request, |Records(k.request)|) <= |k.down|
    ensures s.conns[c].sent == |Records(s.conns[c].request)|
  {
    var k := s.conns[c];
    assert DownOk(cfg, k, WrittenInFlight(s, c));
    hide Base, Stream, Encode, WrittenInFlight, StreamsOk;
    if k.sent < |Records(k.request)| {
      BaseGrows(cfg, k.request, k.sent, |Records(k.request)|);
      NotWholeInFlight(cfg, k, WrittenInFlight(s, c));
    }
  }

  lemma NotWholeInFlight(cfg: Config, k: Conn, inFlight: nat)
    requires k.sent < |Records(k.request)| && DownOk(cfg, k, inFlight) && !BeforeStream(k.comm)
    ensures |k.down| < Base(cfg, k.request, k.sent) + |Encode(cfg.disk, Records(k.request)[k.sent])|
  {
    hide Base, Stream;
  }

  /** A client that has finished has consumed its whole stream. */
  lemma FinishedConsumedAll(cfg: Config, k: Conn)
    requires ConnOk(cfg, k) && k.client.pc.Finished?
    ensures Base(cfg, k.request, |Records(k.request)|) <= |k.down|
  {
    hide Base, FilesAfter;
  }

  /** When a communication thread has read the final message, nothing of its connection is left
      in the system: it is all sent, and no worker will touch the connection's stream again. */
  lemma NothingLeftAtTheEnd(cfg: Config, s: State, c: nat)
    requires Inv(cfg, s) && c < |s.conns| && s.conns[c].comm.Deregister?
    ensures s.conns[c].sent == |Records(s.conns[c].request)|
    ensures InFlight(s, c) == [] && Held(s, c) == [] && Filter(s.queue, s.conns[c].request.socket) == []
  {
    hide QueueLockOk, NodeLockOk, SocketsDistinct, RegistryOk, QueueOk, WorkersOk, StreamsOk, ConnOk, NotEmptyOk;
    hide NotFullOk, InFlight, Held, Filter;
    var k := s.conns[c];
    assert ConnOk(cfg, k);
    DeregisteringHasFinished(cfg, k);
    FinishedConsumedAll(cfg, k);
    FinishedMeansAllSent(cfg, s, c);
    assert Conserved(s, c);
  }

  lemma DeregisteringHasFinished(cfg: Config, k: Conn)
    requires ConnOk(cfg, k) && (k.comm.Deregister? || k.comm.Close? || k.comm.Gone?)
    ensures k.client.pc.Finished? && k.upRead == |k.up|
  {
    hide ClientOk, UpBytes, GoodRequest;
  }

  /** Which workers can still be concerned with a connection that is being removed. */
  lemma NoWorkerNeeds(s: State, c: nat)
    requires QueueLockOk(s) && NodeLockOk(s) && WorkersOk(s) && c < |s.conns|
    requires InFlight(s, c) == [] && Held(s, c) == []
    ensures forall w | 0 <= w < |s.workers| ::
              match s.workers[w]
              case Find(rec) => rec.socket != s.conns[c].request.socket
              case LockNode(_, node) => node != c
              case UnlockQueue(_, node) => node != c
              case SignalNotFull(_, node) => node != c
              case Send(_, node, _) => node != c
              case _ => true
  {
    hide AtNode, Names;
    forall w | 0 <= w < |s.workers|
      ensures NodeHeld(s.workers[w]) == Some(c) ==> Transmitting(s.workers[w]) == []
      ensures s.lock == Some(WorkerThread(w)) <==> WorkerHoldsQueue(s.workers[w])
    {
    }
  }

  lemma OthersStillNamed(s: State, c: nat, pc: CommPc, registry: seq<RegistryNode>, s': State)
    requires c < |s.conns| && s' == s.(registry := registry).SetComm(c, pc)
    ensures forall socket :: Names(s, socket) && socket != s.conns[c].request.socket ==> Names(s', socket)
    ensures forall rec, node :: AtNode(s, rec, node) && node != c ==> AtNode(s', rec, node)
  {
    hide Registered;
    forall socket | Names(s, socket) && socket != s.conns[c].request.socket
      ensures Names(s', socket)
    {
      var d :| 0 <= d < |s.conns| && Registered(s.conns[d].comm) && s.conns[d].request.socket == socket;
      assert Registered(s'.conns[d].comm);
    }
  }

  lemma DeregisterKeepsWork(cfg: Config, s: State, c: nat, registry: seq<RegistryNode>, s': State)
    requires QueueLockOk(s) && NodeLockOk(s) && WorkersOk(s) && QueueOk(cfg, s) && ConservationOk(s)
    requires c < |s.conns| && s.conns[c].comm.Deregister? && s' == s.(registry := registry).SetComm(c, Close)
    requires InFlight(s, c) == [] && Held(s, c) == [] && Filter(s.queue, s.conns[c].request.socket) == []
    ensures WorkersOk(s') && QueueOk(cfg, s') && ConservationOk(s')
  {
    NoWorkerNeeds(s, c);
    OthersStillNamed(s, c, Close, registry, s');
    AbsentIsFilteredOut(s.queue, s.conns[c].request.socket);
    assert ConservationOk(s') by {
      DeregisterKeepsConservation(s, c, registry, s');
    }
    hide Names, AtNode, QueueLockOk, NodeLockOk, ConservationOk, InFlight, Held, Filter;
    forall w | 0 <= w < |s.workers|
      ensures WorkerOk(s', s'.workers[w])
    {
      assert WorkerOk(s, s.workers[w]);
    }
  }

  lemma DeregisterKeepsConservation(s: State, c: nat, registry: seq<RegistryNode>, s': State)
    requires ConservationOk(s) && c < |s.conns| && s' == s.(registry := registry).SetComm(c, Close)
    ensures ConservationOk(s')
  {
    assert !Registered(Close);
    hide Filter, Transmitting, Registered;
    forall d | 0 <= d < |s.conns|
      ensures Conserved(s', d)
    {
      assert Conserved(s, d);
      assert InFlight(s', d) == InFlight(s, d) && Held(s', d) == Held(s, d);
    }
  }

  lemma {:induction false} RemoveNodeRemoves(registry: seq<RegistryNode>, node: RegistryNode)
    requires node in registry && forall i, j | 0 <= i < j < |registry| :: registry[i] != registry[j]
    ensures var rest := RemoveNode(registry, node);
            && (forall r :: r in rest <==> r in registry && r != node)
            && (forall i, j | 0 <= i < j < |rest| :: rest[i] != rest[j])
  {
    assert registry[0] !in registry[1..] by {
      assert forall j | 0 <= j < |registry| - 1 :: registry[1..][j] == registry[j + 1];
    }
    if registry[0] != node {
      RemoveNodeRemoves(registry[1..], node);
      assert forall r :: r in registry <==> r == registry[0] || r in registry[1..];
      var rest := RemoveNode(registry[1..], node);
      assert RemoveNode(registry, node) == [registry[0]] + rest;
      assert registry[0] !in rest;
    } else {
      assert forall r :: r in registry <==> r == node || r in registry[1..];
    }
  }

  lemma DeregisterKeepsRegistry(s: State, c: nat, s': State)
    requires SocketsDistinct(s) && RegistryOk(s) && c < |s.conns| && s.conns[c].comm.Deregister?
    requires s' == s.(registry := RemoveNode(s.registry, RegistryNode(s.conns[c].request.socket, c))).SetComm(c, Close)
    ensures SocketsDistinct(s') && RegistryOk(s')
  {
    hide RemoveNode;
    RemoveNodeRemoves(s.registry, RegistryNode(s.conns[c].request.socket, c));
  }

  lemma DeregisterKeeps(cfg: Config, s: State, c: nat, s': State)
    requires Inv(cfg, s) && c < |s.conns| && s.conns[c].comm.Deregister?
    requires s' == s.(registry := RemoveNode(s.registry, RegistryNode(s.conns[c].request.socket, c))).SetComm(c, Close)
    ensures Inv(cfg, s')
  {
    hide QueueLockOk, NodeLockOk, SocketsDistinct, RegistryOk, QueueOk, WorkersOk, ConservationOk, StreamsOk;
    hide ConnOk, NotEmptyOk, NotFullOk;
    hide RemoveNode, InFlight, Held, Filter;
    NothingLeftAtTheEnd(cfg, s, c);
    DeregisterKeepsRegistry(s, c, s');
    DeregisterKeepsWork(cfg, s, c, s'.registry, s');
    assert ConnOk(cfg, s.conns[c]);
    LifeConnOk(cfg, s.conns[c], Close);
    LifeStepKeeps(cfg, s, c, Close, s'.registry, s');
  }

  /** Opening or closing a descriptor: the registry does not change. */
  lemma DoorKeepsRegistry(s: State, c: nat, pc: CommPc, s': State)
    requires SocketsDistinct(s) && RegistryOk(s) && c < |s.conns| && s' == s.SetComm(c, pc)
    requires !Registered(s.conns[c].comm) && !Registered(pc)
    requires Live(pc) ==> forall d | 0 <= d < |s.conns| && Live(s.conns[d].comm) ::
             s.conns[d].request.socket != s.conns[c].request.socket
    ensures SocketsDistinct(s') && RegistryOk(s')
  {
    hide Registered, Live;
  }

  lemma DoorKeepsConservation(s: State, c: nat, pc: CommPc, s': State)
    requires ConservationOk(s) && c < |s.conns| && s' == s.SetComm(c, pc)
    requires !Registered(s.conns[c].comm) && !Registered(pc)
    ensures ConservationOk(s')
  {
    hide Filter, Transmitting, Registered;
    forall d | 0 <= d < |s.conns|
      ensures Conserved(s', d)
    {
      assert Conserved(s, d);
      assert InFlight(s', d) == InFlight(s, d) && Held(s', d) == Held(s, d);
    }
  }

  lemma DoorKeeps(cfg: Config, s: State, c: nat, pc: CommPc, s': State)
    requires Inv(cfg, s) && c < |s.conns| && s' == s.SetComm(c, pc)
    requires (s.conns[c].comm.Close? && pc.Gone?)
          || (s.conns[c].comm.Unborn? && pc.Register?
              && forall d | 0 <= d < |s.conns| && Live(s.conns[d].comm) ::
                  s.conns[d].request.socket != s.conns[c].request.socket)
    ensures Inv(cfg, s')
  {
    hide QueueLockOk, NodeLockOk, SocketsDistinct, RegistryOk, QueueOk, WorkersOk, ConservationOk, StreamsOk;
    hide ConnOk, NotEmptyOk, NotFullOk;
    hide Names, AtNode;
    DoorKeepsRegistry(s, c, pc, s');
    DoorKeepsConservation(s, c, pc, s');
    RegisterKeepsNames(s, c, pc, s.registry, s');
    QueueKept(cfg, s, s');
    WorkersKept(s, s', -1);
    assert ConnOk(cfg, s.conns[c]);
    LifeConnOk(cfg, s.conns[c], pc);
    LifeStepKeeps(cfg, s, c, pc, s.registry, s');
  }

  // ---------------------------------------------------------------- all steps of communication threads

  /** Every step of every communication thread keeps the invariant. */
  lemma CommStepKeeps(cfg: Config, s: State, c: nat, wake: Option<nat>, s': State)
    requires Inv(cfg, s) && c < |s.conns| && CommStep(cfg, s, c, wake) == Some(s')
    ensures Inv(cfg, s')
  {
    hide QueueLockOk, NodeLockOk, SocketsDistinct, RegistryOk, QueueOk, WorkersOk, ConservationOk, StreamsOk;
    hide ConnsOk, NotEmptyOk, NotFullOk;
    hide CommSignals, CommInserts, RemoveNode, BigEndian;
    HoldsExactly(s, c);
    match s.conns[c].comm
    case Unborn =>
    case Register => RegisterKeeps(cfg, s, c, s');
    case ReadDirectoryAck => ReadKeeps(cfg, s, c, SendBlockSize, s');
    case SendBlockSize => BlockSizeKeeps(cfg, s, c, s');
    case ReadBlockAck => ReadKeeps(cfg, s, c, CommPc.Lock, s');
    case Lock => MoveKeeps(cfg, s, c, CommPc.Test, s'.lock, s');
    case Test => MoveKeeps(cfg, s, c, s'.conns[c].comm, s'.lock, s');
    case Asleep =>
    case Reacquire => MoveKeeps(cfg, s, c, CommPc.Test, s'.lock, s');
    case Insert => InsertKeeps(cfg, s, c, s');
    case Unlock => MoveKeeps(cfg, s, c, SignalNotEmpty, None, s');
    case SignalNotEmpty => SignalKeeps(cfg, s, c, wake, s');
    case ReadAck => ReadKeeps(cfg, s, c, s'.conns[c].comm, s');
    case Deregister => DeregisterKeeps(cfg, s, c, s');
    case Close => DoorKeeps(cfg, s, c, Gone, s');
    case Gone =>
  }
}
