/** Whole-run termination: a measure of the work left falls at every step, except that a spurious
    wake-up may add a little to it. */
module Termination {
  import opened Wire
  import opened PathMapping
  import opened Protocol
  import opened Invariants
  import opened Frames
  import opened System
  import WorkerSteps
  import CommSteps
  import ClientSteps

  const RECORD_IN_QUEUE: nat := 14
  const RECORD_TO_INSERT: nat := 23
  const WAKE_UP: nat := 4

  function WorkerPotential(pc: WorkerPc): nat {
    match pc
    case Top => 6
    case Lock => 5
    case Test => 4
    case GoWait => 2
    case Asleep => 1
    case Reacquire => 5
    case Check => 3
    case Quit => 1
    case Pop => 2
    case Find(_) => 15
    case LockNode(_, _) => 14
    case UnlockQueue(_, _) => 13
    case SignalNotFull(_, _) => 12
    case Send(_, _, _) => 8
    case UnlockNode(_) => 7
    case Exited => 0
    case Crashed => 0
  }

  function CommPotential(pc: CommPc): nat {
    match pc
    case Unborn => 13
    case Register => 10
    case ReadDirectoryAck => 9
    case SendBlockSize => 8
    case ReadBlockAck => 7
    case Lock => 6
    case Test => 5
    case Asleep => 4
    case Reacquire => 6
    case Insert => 4
    case Unlock => 12
    case SignalNotEmpty => 11
    case ReadAck => 3
    case Deregister => 2
    case Close => 1
    case Gone => 0
  }

  function Left(total: nat, done: nat): nat {
    if done <= total then total - done else 0
  }

  /** Everything a client will ever write. */
  function UpTotal(r: Request): nat {
    3 * (2 + |Records(r)|) + 3
  }

  /** Uninserted records, bytes to write and to read in both directions. */
  function ConnPotential(cfg: Config, k: Conn): nat {
    CommPotential(k.comm)
    + RECORD_TO_INSERT * Left(|Records(k.request)|, k.inserted)
    + Left(|Stream(cfg, k.request)|, |k.down|) + Left(|Stream(cfg, k.request)|, k.client.consumed)
    + Left(UpTotal(k.request), |k.up|) + Left(UpTotal(k.request), k.upRead)
  }

  function Weigh(cfg: Config): Conn -> nat {
    k => ConnPotential(cfg, k)
  }

  function MainPotential(s: State): nat {
    (if s.running then 1 else 0)
    + match s.main
      case AtTest => WAKE_UP * |s.workers| + 4
      case CallsAccept => WAKE_UP * |s.workers| + 3
      case InAccept => WAKE_UP * |s.workers| + 2
      case Stopping => WAKE_UP * |s.workers| + 1
      case Joining => 0
  }

  function Measure(cfg: Config, s: State): nat {
    Sum(s.workers, WorkerPotential) + Sum(s.conns, Weigh(cfg)) + RECORD_IN_QUEUE * |s.queue| + MainPotential(s)
  }

  // ---------------------------------------------------------------- bounds that the invariant gives

  lemma StreamEnd(cfg: Config, r: Request)
    ensures Base(cfg, r, |Records(r)|) == |Stream(cfg, r)|
  {
    hide EncodeAll, BigEndian;
    assert Records(r)[..|Records(r)|] == Records(r);
  }

  lemma UpWithinTotal(cfg: Config, k: Conn)
    requires ConnOk(cfg, k)
    ensures k.upRead <= |k.up| <= UpTotal(k.request)
    ensures !k.client.pc.Finished? ==> |k.up| + 3 <= UpTotal(k.request)
  {
    CommSteps.UpLength(Acks(k.client), k.client.pc.Finished?);
    hide UpBytes, Base, FilesAfter, PayloadOf, Suffix, Records;
  }

  // ---------------------------------------------------------------- each kind of step

  /** One worker and one connection change. */
  lemma MeasureOfChange(cfg: Config, s: State, s': State, w: nat, c: nat)
    requires w < |s.workers| && c < |s.conns| && |s'.workers| == |s.workers| && |s'.conns| == |s.conns|
    requires s'.workers == s.workers[w := s'.workers[w]] && s'.conns == s.conns[c := s'.conns[c]]
    requires s'.running == s.running && s'.main == s.main
    ensures Measure(cfg, s') - Measure(cfg, s)
         == WorkerPotential(s'.workers[w]) - WorkerPotential(s.workers[w])
          + ConnPotential(cfg, s'.conns[c]) - ConnPotential(cfg, s.conns[c])
          + RECORD_IN_QUEUE * (|s'.queue| - |s.queue|)
  {
    SumUpdate(s.workers, w, s'.workers[w], WorkerPotential);
    SumUpdate(s.conns, c, s'.conns[c], Weigh(cfg));
    hide Sum, WorkerPotential, ConnPotential;
  }

  lemma MeasureOfWorker(cfg: Config, s: State, s': State, w: nat)
    requires w < |s.workers| && |s'.workers| == |s.workers| && s'.conns == s.conns
    requires s'.workers == s.workers[w := s'.workers[w]]
    requires s'.running == s.running && s'.main == s.main
    ensures Measure(cfg, s') - Measure(cfg, s)
         == WorkerPotential(s'.workers[w]) - WorkerPotential(s.workers[w]) + RECORD_IN_QUEUE * (|s'.queue| - |s.queue|)
  {
    SumUpdate(s.workers, w, s'.workers[w], WorkerPotential);
    hide Sum, WorkerPotential, Weigh;
  }

  lemma MeasureOfConn(cfg: Config, s: State, s': State, c: nat)
    requires c < |s.conns| && |s'.conns| == |s.conns| && s'.workers == s.workers
    requires s'.conns == s.conns[c := s'.conns[c]]
    requires s'.running == s.running && s'.main == s.main
    ensures Measure(cfg, s') - Measure(cfg, s)
         == ConnPotential(cfg, s'.conns[c]) - ConnPotential(cfg, s.conns[c])
          + RECORD_IN_QUEUE * (|s'.queue| - |s.queue|)
  {
    SumUpdate(s.conns, c, s'.conns[c], Weigh(cfg));
    hide Sum, WorkerPotential, ConnPotential;
  }

  /** A step of a worker that changes no connection. */
  lemma PoolStepDecreases(cfg: Config, s: State, w: nat, wake: Option<nat>, n: nat, s': State)
    requires w < |s.workers| && WorkerStep(cfg, s, w, wake, n) == Some(s')
    requires var pc := s.workers[w]; !pc.SignalNotFull? && !pc.Send? && !pc.LockNode? && !pc.UnlockNode?
    ensures Measure(cfg, s') < Measure(cfg, s)
  {
    hide Measure, FindNode;
    MeasureOfWorker(cfg, s, s', w);
  }

  /** A worker takes or drops a connection's mutex, or signals. */
  lemma ServiceStepDecreases(cfg: Config, s: State, w: nat, wake: Option<nat>, n: nat, s': State)
    requires w < |s.workers| && WorkerStep(cfg, s, w, wake, n) == Some(s')
    requires var pc := s.workers[w]; pc.SignalNotFull? || pc.LockNode? || pc.UnlockNode?
    ensures Measure(cfg, s') < Measure(cfg, s)
  {
    hide Measure, Stream;
    match s.workers[w]
    case LockNode(_, node) => MeasureOfChange(cfg, s, s', w, node);
    case UnlockNode(node) => MeasureOfChange(cfg, s, s', w, node);
    case _ =>
      match wake {
        case Some(c) => MeasureOfChange(cfg, s, s', w, c);
        case None => MeasureOfWorker(cfg, s, s', w);
      }
  }

  lemma WorkerStepDecreases(cfg: Config, s: State, w: nat, wake: Option<nat>, n: nat, s': State)
    requires Inv(cfg, s) && w < |s.workers| && WorkerStep(cfg, s, w, wake, n) == Some(s')
    ensures Measure(cfg, s') < Measure(cfg, s)
  {
    hide Inv, Measure, WorkerWrites, WorkerSignals, FindNode;
    match s.workers[w]
    case Send(_, _, _) => WriteDecreases(cfg, s, w, n, s');
    case SignalNotFull(_, _) => ServiceStepDecreases(cfg, s, w, wake, n, s');
    case LockNode(_, _) => ServiceStepDecreases(cfg, s, w, wake, n, s');
    case UnlockNode(_) => ServiceStepDecreases(cfg, s, w, wake, n, s');
    case _ => PoolStepDecreases(cfg, s, w, wake, n, s');
  }

  lemma WriteDecreases(cfg: Config, s: State, w: nat, n: nat, s': State)
    requires Inv(cfg, s) && w < |s.workers| && s.workers[w].Send?
    requires WorkerWrites(cfg, s, w, s.workers[w].rec, s.workers[w].node, s.workers[w].written, n) == Some(s')
    ensures Measure(cfg, s') < Measure(cfg, s)
  {
    hide NodeLockOk, SocketsDistinct, RegistryOk, QueueOk, QueueLockOk, WorkersOk, ConservationOk, StreamsOk;
    hide ConnsOk, NotEmptyOk, NotFullOk;
    hide Measure, Encode, OpenConn, Stream;
    WorkerSteps.WorkerIsOk(s, w);
    WorkerSteps.WriteKeepsRecords(cfg, s, w, n, s');
    var node := s.workers[w].node;
    ClientSteps.DownIsStream(cfg, s', node);
    MeasureOfChange(cfg, s, s', w, node);
    WriteLengthens(cfg, s, w, n, s');
  }

  lemma WriteLengthens(cfg: Config, s: State, w: nat, n: nat, s': State)
    requires SocketsDistinct(s) && w < |s.workers| && s.workers[w].Send? && WorkerOk(s, s.workers[w])
    requires WorkerWrites(cfg, s, w, s.workers[w].rec, s.workers[w].node, s.workers[w].written, n) == Some(s')
    ensures var node := s.workers[w].node;
            && |s'.conns| == |s.conns| && n > 0
            && s'.conns[node] == s.conns[node].(down := s'.conns[node].down, sent := s'.conns[node].sent)
            && |s'.conns[node].down| == |s.conns[node].down| + n
            && s'.queue == s.queue
  {
    hide Encode, OpenConn;
    WorkerSteps.WritesReachNode(s, s.workers[w].node, 0);
  }

  /** A communication thread reads or writes its connection's streams. */
  lemma StreamStepDecreases(cfg: Config, s: State, c: nat, wake: Option<nat>, s': State)
    requires Inv(cfg, s) && c < |s.conns| && CommStep(cfg, s, c, wake) == Some(s')
    requires var pc := s.conns[c].comm; pc.ReadDirectoryAck? || pc.SendBlockSize? || pc.ReadBlockAck? || pc.ReadAck?
    ensures Measure(cfg, s') < Measure(cfg, s)
  {
    hide QueueLockOk, NodeLockOk, SocketsDistinct, RegistryOk, QueueOk, WorkersOk, ConservationOk, StreamsOk;
    hide ConnOk, NotEmptyOk, NotFullOk;
    hide Measure, BigEndian, Stream, Records, UpTotal;
    assert ConnOk(cfg, s.conns[c]);
    UpWithinTotal(cfg, s.conns[c]);
    hide Inv;
    MeasureOfConn(cfg, s, s', c);
  }

  /** A communication thread locks, waits, inserts, unlocks, registers or closes. */
  lemma InsertionStepDecreases(cfg: Config, s: State, c: nat, wake: Option<nat>, s': State)
    requires c < |s.conns| && CommStep(cfg, s, c, wake) == Some(s')
    requires var pc := s.conns[c].comm; !pc.ReadDirectoryAck? && !pc.SendBlockSize? && !pc.ReadBlockAck? && !pc.ReadAck?
    ensures Measure(cfg, s') < Measure(cfg, s)
  {
    hide Measure, RemoveNode, Stream, Records, UpTotal;
    match s.conns[c].comm
    case SignalNotEmpty =>
      match wake {
        case Some(w) => MeasureOfChange(cfg, s, s', w, c);
        case None => MeasureOfConn(cfg, s, s', c);
      }
    case _ => MeasureOfConn(cfg, s, s', c);
  }

  lemma CommStepDecreases(cfg: Config, s: State, c: nat, wake: Option<nat>, s': State)
    requires Inv(cfg, s) && c < |s.conns| && CommStep(cfg, s, c, wake) == Some(s')
    ensures Measure(cfg, s') < Measure(cfg, s)
  {
    hide Inv, Measure, CommStep;
    match s.conns[c].comm
    case ReadDirectoryAck => StreamStepDecreases(cfg, s, c, wake, s');
    case SendBlockSize => StreamStepDecreases(cfg, s, c, wake, s');
    case ReadBlockAck => StreamStepDecreases(cfg, s, c, wake, s');
    case ReadAck => StreamStepDecreases(cfg, s, c, wake, s');
    case _ => InsertionStepDecreases(cfg, s, c, wake, s');
  }

  lemma ClientStepDecreases(cfg: Config, s: State, c: nat, k': Conn, s': State)
    requires Inv(cfg, s) && c < |s.conns| && ClientStep(s.conns[c]) == Some(k') && s' == s.SetConn(c, k')
    ensures Measure(cfg, s') < Measure(cfg, s)
  {
    hide QueueLockOk, NodeLockOk, SocketsDistinct, RegistryOk, QueueOk, WorkersOk, ConservationOk, StreamsOk;
    hide ConnOk, NotEmptyOk, NotFullOk;
    hide Measure, ClientStep, Stream, Records, UpTotal;
    var k := s.conns[c];
    assert ConnOk(cfg, k);
    UpWithinTotal(cfg, k);
    ClientSteps.DownIsStream(cfg, s, c);
    ClientSteps.ClientStepKeepsConn(cfg, k, k');
    UpWithinTotal(cfg, k');
    ClientSteps.ClientStepFrame(k, k');
    ConsumedWithin(cfg, k');
    ClientStepAdvances(cfg, k, k');
    MeasureOfConn(cfg, s, s', c);
  }

  lemma ConsumedWithin(cfg: Config, k: Conn)
    requires ConnOk(cfg, k)
    ensures k.client.consumed <= |k.down|
  {
    hide Base, FilesAfter, PayloadOf, Suffix, Records;
  }

  lemma ClientStepAdvances(cfg: Config, k: Conn, k': Conn)
    requires GoodConfig(cfg) && ConnOk(cfg, k) && ClientStep(k) == Some(k')
    ensures |k.up| <= |k'.up| && k.client.consumed <= k'.client.consumed
    ensures |k.up| < |k'.up| || k.client.consumed < k'.client.consumed
  {
    hide UpOk, CommOk, Base, FilesAfter, PayloadOf, Suffix, EndsTransfer, FromBigEndian, NextBlock, CountDown;
    hide ToInt32, Place, Rebuild, Records, Stream;
    if k.client.pc.ReadChunk? {
      var got := |k.client.fs.contents[k.client.pc.out]|;
      ClientSteps.PayloadFits(cfg, k.request, k.client.decoded);
      ClientSteps.CounterIsExact(|PayloadOf(cfg, k.request, k.client.decoded)| - got, k.client.block);
    }
    if k.client.pc.ReadPath? {
      PathIsNotEmpty(k.request, k.client.decoded);
    }
  }

  lemma PathIsNotEmpty(r: Request, i: nat)
    requires GoodRequest(r) && i < |Records(r)|
    ensures |Records(r)[i]| > 0
  {
    if i < |r.listing| {
      assert Records(r)[i] in r.listing;
    }
  }

  lemma BroadcastDecreases(cfg: Config, s: State, s': State)
    requires s.main.Stopping? && s' == s.(main := Joining, workers := WakeAll(s.workers))
    ensures Measure(cfg, s') < Measure(cfg, s)
  {
    SumPointwise(s.workers, s'.workers, WorkerPotential, WAKE_UP);
    hide Sum, Weigh;
  }

  /** Every step of a thread, of main or of the environment brings the end nearer; a spurious
      wake-up moves it away by a constant. */
  lemma StepDecreases(cfg: Config, s: State, e: Event, s': State)
    requires Inv(cfg, s) && Step(cfg, s, e) == Some(s')
    ensures !IsSpurious(e) ==> Measure(cfg, s') < Measure(cfg, s)
    ensures IsSpurious(e) ==> Measure(cfg, s') <= Measure(cfg, s) + WAKE_UP
  {
    hide Inv, WorkerStep, CommStep, ClientStep, WakeAll, ConnPotential, Sum;
    match e
    case Accept(c) =>
      var accepted := s.SetComm(c, Register);
      MeasureOfConn(cfg, s, accepted, c);
      CommChange(cfg, s.conns[c], accepted.conns[c]);
    case WorkerRuns(w, wake, n) => WorkerStepDecreases(cfg, s, w, wake, n, s');
    case CommRuns(c, wake) => CommStepDecreases(cfg, s, c, wake, s');
    case ClientRuns(c) => ClientStepDecreases(cfg, s, c, ClientStep(s.conns[c]).value, s');
    case SpuriousWorker(w) => MeasureOfWorker(cfg, s, s', w);
    case SpuriousComm(c) => MeasureOfConn(cfg, s, s', c); CommChange(cfg, s.conns[c], s'.conns[c]);
    case Interrupt =>
    case MainGoesOn =>
    case MainBroadcasts => BroadcastDecreases(cfg, s, s');
  }

  lemma CommChange(cfg: Config, k: Conn, k': Conn)
    requires k' == k.(comm := k'.comm)
    ensures ConnPotential(cfg, k') - ConnPotential(cfg, k) == CommPotential(k'.comm) - CommPotential(k.comm)
  {
    hide CommPotential, Stream, Records;
  }

  // ---------------------------------------------------------------- whole runs

  function SpuriousCount(events: seq<Event>): nat {
    if events == [] then 0
    else SpuriousCount(events[..|events| - 1]) + (if IsSpurious(events[|events| - 1]) then 1 else 0)
  }

  /** No run goes on for ever: its length is bounded by the work there is at the start and the
      number of spurious wake-ups. */
  lemma {:induction false} RunsAreBounded(cfg: Config, states: seq<State>, events: seq<Event>)
    requires IsRun(cfg, states, events)
    ensures |events| + Measure(cfg, states[|events|]) <= Measure(cfg, states[0]) + (WAKE_UP + 1) * SpuriousCount(events)
  {
    hide Init, Measure, Step, Inv;
    if events != [] {
      var n := |events| - 1;
      assert events[..n + 1] == events;
      RunsAreBounded(cfg, states[..n + 1], events[..n]);
      RunKeepsInvariant(cfg, states, events, n);
      assert Step(cfg, states[n], events[n]) == Some(states[n + 1]);
      StepDecreases(cfg, states[n], events[n], states[n + 1]);
    }
  }
}
