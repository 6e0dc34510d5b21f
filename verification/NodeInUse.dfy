/** A run in which a registry node is deleted while a worker still has its mutex locked: the last byte
    has been written, and everything up to the deletion happens before the worker unlocks. */
module NodeInUse {
  import opened Wire
  import opened PathMapping
  import opened Protocol
  import opened Invariants
  import opened System
  import opened Progress
  import Termination

  // ---------------------------------------------------------------- one worker, one empty directory

  function Cfg(): Config {
    Config(1, 1, map[], 3, MAX_LENGTH)
  }

  function Asked(): Request {
    Request(0, "/a", "out", [])
  }

  function Accepted(k: Conn, pc: WorkerPc, lock: Option<Thread>, queue: seq<Record>): State {
    State(true, AtTest, queue, lock, [RegistryNode(0, 0)], [pc], [k])
  }

  function Last(): Record {
    Record(0, TERMINATION_MSG)
  }

  /** After the handshake. */
  function Greeted(): Conn {
    Conn(Asked(), CommPc.Lock, 0, 0, None, BigEndian(1, 4), ACK_MSG + ACK_MSG, 6,
        Client(ReadLength, 4, 1, Fresh("out"), 0))
  }

  function Inserted(): Conn {
    Greeted().(comm := ReadAck, inserted := 1)
  }

  function Registering(comm: CommPc): Conn {
    NewConn(Asked()).(comm := comm)
  }

  function Start(): State {
    State(true, AtTest, [], None, [], [Top], [NewConn(Asked())])
  }

  lemma StartIsInitial()
    ensures Init(Cfg(), Start())
  {
    assert Asked().directory[0] == '/';
  }

  lemma Registers() returns (states: seq<State>, events: seq<Event>)
    ensures IsRun(Cfg(), states, events) && states[|events|] == Accepted(Registering(ReadDirectoryAck), Top, None, [])
  {
    hide EncodeAll, Encode, BigEndian, FromBigEndian, Init, Inv, Records, ClientStep, WorkerStep;
    StartIsInitial();
    Sole<Conn>();
    states, events := [Start()], [];
    states, events := Then(states, events, MainGoesOn, Start().(main := CallsAccept));
    states, events := Then(states, events, MainGoesOn, Start().(main := InAccept));
    states, events := Then(states, events, Accept(0), Start().(conns := [Registering(Register)]));
    assert [] + [RegistryNode(0, 0)] == [RegistryNode(0, 0)];
    states, events := Then(states, events, CommRuns(0, None), Accepted(Registering(ReadDirectoryAck), Top, None, []));
  }

  lemma Handshake() returns (states: seq<State>, events: seq<Event>)
    ensures IsRun(Cfg(), states, events) && states[|events|] == Accepted(Greeted(), Top, None, [])
  {
    hide EncodeAll, Encode, BigEndian, FromBigEndian, Init, Inv, Records;
    Sole<Conn>();
    FieldRoundTrip(1);
    var head := BigEndian(1, 4);
    assert "" + ACK_MSG == ACK_MSG && "" + head == head && head[0..4] == head;
    var k := Registering(ReadDirectoryAck);
    states, events := Registers();
    k := k.(up := ACK_MSG, client := k.client.(pc := ReadBlockSize));
    states, events := Then(states, events, ClientRuns(0), Accepted(k, Top, None, []));
    k := k.(comm := SendBlockSize, upRead := 3);
    states, events := Then(states, events, CommRuns(0, None), Accepted(k, Top, None, []));
    k := k.(comm := ReadBlockAck, down := head);
    states, events := Then(states, events, CommRuns(0, None), Accepted(k, Top, None, []));
    states, events := Acknowledged(states, events, k);
  }

  lemma Acknowledged(ss: seq<State>, es: seq<Event>, k0: Conn) returns (states: seq<State>, events: seq<Event>)
    requires k0 == Conn(Asked(), ReadBlockAck, 0, 0, None, BigEndian(1, 4), ACK_MSG, 3,
             Client(ReadBlockSize, 0, 0, Fresh("out"), 0))
    requires IsRun(Cfg(), ss, es) && ss[|es|] == Accepted(k0, Top, None, [])
    ensures IsRun(Cfg(), states, events) && states[|events|] == Accepted(Greeted(), Top, None, [])
  {
    hide EncodeAll, Encode, BigEndian, FromBigEndian, Init, Inv, Records;
    Sole<Conn>();
    FieldRoundTrip(1);
    assert k0.down[0..4] == BigEndian(1, 4);
    var k := k0.(client := Client(AckBlockSize, 4, 1, Fresh("out"), 0));
    states, events := Then(ss, es, ClientRuns(0), Accepted(k, Top, None, []));
    k := k.(up := ACK_MSG + ACK_MSG, client := Client(ReadLength, 4, 1, Fresh("out"), 0));
    states, events := Then(states, events, ClientRuns(0), Accepted(k, Top, None, []));
    states, events := Then(states, events, CommRuns(0, None), Accepted(Greeted(), Top, None, []));
  }

  /** One more step of a run of this configuration. */
  lemma Then(ss: seq<State>, es: seq<Event>, e: Event, s: State) returns (states: seq<State>, events: seq<Event>)
    requires IsRun(Cfg(), ss, es) && Step(Cfg(), ss[|es|], e) == Some(s)
    ensures IsRun(Cfg(), states, events) && states[|events|] == s
  {
    hide Init, Step, Inv;
    Extend(Cfg(), ss, es, e, s);
    states, events := ss + [s], es + [e];
  }

  /** The termination record is queued. */
  lemma Queues() returns (states: seq<State>, events: seq<Event>)
    ensures IsRun(Cfg(), states, events) && states[|events|] == Accepted(Inserted(), Top, None, [Last()])
  {
    hide EncodeAll, Encode, BigEndian, Init, Inv;
    Sole<WorkerPc>();
    Sole<Conn>();
    var k, run := Greeted(), CommRuns(0, None);
    var me := Some(CommThread(0));
    states, events := Handshake();
    states, events := Then(states, events, run, Accepted(k.(comm := CommPc.Test), Top, me, []));
    states, events := Then(states, events, run, Accepted(k.(comm := Insert), Top, me, []));
    assert Records(Asked())[0] == TERMINATION_MSG && [] + [Last()] == [Last()];
    states, events := Then(states, events, run, Accepted(k.(comm := Unlock, inserted := 1), Top, me, [Last()]));
    states, events := Then(states, events, run,
                           Accepted(k.(comm := SignalNotEmpty, inserted := 1), Top, None, [Last()]));
    states, events := Then(states, events, run, Accepted(Inserted(), Top, None, [Last()]));
  }

  lemma Pops() returns (states: seq<State>, events: seq<Event>)
    ensures IsRun(Cfg(), states, events) && states[|events|]
            == Accepted(Inserted(), Find(Last()), Some(WorkerThread(0)), [])
  {
    hide EncodeAll, Encode, BigEndian, Init, Inv, Records;
    Sole<WorkerPc>();
    Sole<Conn>();
    var k, run, queue, me := Inserted(), WorkerRuns(0, None, 0), [Last()], Some(WorkerThread(0));
    states, events := Queues();
    states, events := Then(states, events, run, Accepted(k, WorkerPc.Lock, None, queue));
    states, events := Then(states, events, run, Accepted(k, WorkerPc.Test, me, queue));
    states, events := Then(states, events, run, Accepted(k, Check, me, queue));
    states, events := Then(states, events, run, Accepted(k, Pop, me, queue));
    states, events := Then(states, events, run, Accepted(k, Find(Last()), me, queue[1..]));
  }

  lemma Writes() returns (states: seq<State>, events: seq<Event>)
    ensures IsRun(Cfg(), states, events)
    ensures var bytes := Encode(map[], TERMINATION_MSG);
            var k := Inserted().(holder := Some(0), sent := 1, down := BigEndian(1, 4) + bytes);
            states[|events|] == Accepted(k, UnlockNode(0), None, [])
  {
    hide EncodeAll, Encode, BigEndian, Init, Inv, Records;
    Sole<WorkerPc>();
    Sole<Conn>();
    var k, run, me := Inserted(), WorkerRuns(0, None, 0), Some(WorkerThread(0));
    var k' := k.(holder := Some(0));
    states, events := Pops();
    states, events := Then(states, events, run, Accepted(k, LockNode(Last(), 0), me, []));
    states, events := Then(states, events, run, Accepted(k', UnlockQueue(Last(), 0), me, []));
    states, events := Then(states, events, run, Accepted(k', SignalNotFull(Last(), 0), None, []));
    states, events := Then(states, events, run, Accepted(k', Send(Last(), 0, 0), None, []));
    var bytes := Encode(map[], TERMINATION_MSG);
    assert bytes[0..|bytes|] == bytes;
    states, events := Then(states, events, WorkerRuns(0, None, |bytes|),
                           Accepted(k'.(sent := 1, down := k.down + bytes), UnlockNode(0), None, []));
  }

  // ---------------------------------------------------------------- the client and its thread go on

  /** Everything is written and the worker has yet to unlock. */
  ghost predicate AllButUnlocked(s: State) {
    && |s.conns| == 1 && s.conns[0].request == Asked() && (s.conns[0].comm.ReadAck? || s.conns[0].comm.Deregister?)
    && |s.conns[0].down| == Base(Cfg(), Asked(), 1) && s.workers == [UnlockNode(0)] && s.conns[0].holder == Some(0)
  }

  /** Either the client or its communication thread can move, as long as that is reading. */
  lemma ClientOrThread(s: State) returns (e: Event, s': State)
    requires Inv(Cfg(), s) && AllButUnlocked(s) && s.conns[0].comm.ReadAck?
    ensures Step(Cfg(), s, e) == Some(s') && AllButUnlocked(s') && !Protocol.IsSpurious(e)
  {
    hide QueueLockOk, NodeLockOk, SocketsDistinct, RegistryOk, QueueOk, WorkersOk, ConservationOk, StreamsOk;
    hide ConnOk, NotEmptyOk, NotFullOk, Base, BigEndian, Stream;
    var k := s.conns[0];
    assert ConnOk(Cfg(), k);
    if k.upRead + 3 <= |k.up| {
      e := CommRuns(0, None);
    } else {
      WaitedForClientIsNotDone(Cfg(), k);
      HandshakeSaysHello(Cfg(), s, 0);
      ClientMoves(Cfg(), k);
      WritesThree(k);
      AwaitedClientHasRoom(Cfg(), k);
      e := ClientRuns(0);
    }
    s' := Step(Cfg(), s, e).value;
  }

  lemma {:induction false} Drains(ss: seq<State>, es: seq<Event>) returns (states: seq<State>, events: seq<Event>)
    requires IsRun(Cfg(), ss, es) && AllButUnlocked(ss[|es|])
    ensures IsRun(Cfg(), states, events) && AllButUnlocked(states[|events|])
            && states[|events|].conns[0].comm.Deregister?
    decreases Termination.Measure(Cfg(), ss[|es|])
  {
    hide Init, Inv, Step, Termination.Measure;
    var s := ss[|es|];
    if s.conns[0].comm.Deregister? {
      states, events := ss, es;
    } else {
      RunKeepsInvariant(Cfg(), ss, es, |es|);
      var e, s' := ClientOrThread(s);
      Termination.StepDecreases(Cfg(), s, e, s');
      var ss', es' := Then(ss, es, e, s');
      states, events := Drains(ss', es');
    }
  }

  /** The node is about to be deleted and its mutex is locked. */
  lemma DeletedWhileLocked() returns (cfg: Config, states: seq<State>, events: seq<Event>)
    ensures IsRun(cfg, states, events)
    ensures var s := states[|events|];
            |s.conns| == 1 && s.conns[0].comm.Deregister? && s.conns[0].holder == Some(0) && s.workers
                == [UnlockNode(0)]
  {
    hide Init, Inv, Step;
    cfg := Cfg();
    states, events := Writes();
    BaseOfOne();
    states, events := Drains(states, events);
  }

  lemma BaseOfOne()
    ensures |BigEndian(1, 4) + Encode(map[], TERMINATION_MSG)| == Base(Cfg(), Asked(), 1)
  {
    hide Encode, BigEndian;
    assert Records(Asked())[..1] == [TERMINATION_MSG];
    assert [TERMINATION_MSG][..0] == [];
  }
}
