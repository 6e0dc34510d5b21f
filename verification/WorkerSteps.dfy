/** Every step of a worker keeps the invariant. */
module WorkerSteps {
  import opened Wire
  import opened Protocol
  import opened Invariants
  import opened Frames

  /** A worker that has no record in hand. */
  predicate Idle(pc: WorkerPc) {
    pc.Top? || pc.Lock? || pc.Test? || pc.GoWait? || pc.Asleep? || pc.Reacquire? || pc.Check? || pc.Quit? || pc.Pop?
        || pc.Exited?
  }

  lemma IdleStepKeepsRecords(cfg: Config, s: State, w: nat, pc: WorkerPc, lock: Option<Thread>, s': State)
    requires ConservationOk(s) && StreamsOk(cfg, s) && QueueLockOk(s)
    requires w < |s.workers| && s' == s.(lock := lock).SetWorker(w, pc)
    requires Idle(s.workers[w]) && Idle(pc)
    requires lock == s.lock || (s.lock.None? && lock == Some(WorkerThread(w)))
             || (s.lock == Some(WorkerThread(w)) && lock.None?)
    ensures ConservationOk(s') && StreamsOk(cfg, s')
  {
    hide ConservationOk, StreamsOk;
    IdleStepMovesNoRecord(s, w, pc, lock, s');
    hide QueueLockOk, Idle, InFlight, Held, WrittenInFlight, Live, Registered, BeforeStream;
    ConservationKept(s, s');
    StreamsKept(cfg, s, s');
  }

  lemma IdleStepMovesNoRecord(s: State, w: nat, pc: WorkerPc, lock: Option<Thread>, s': State)
    requires QueueLockOk(s) && w < |s.workers| && s' == s.(lock := lock).SetWorker(w, pc)
    requires Idle(s.workers[w]) && Idle(pc)
    requires lock == s.lock || (s.lock.None? && lock == Some(WorkerThread(w)))
             || (s.lock == Some(WorkerThread(w)) && lock.None?)
    ensures forall c | 0 <= c < |s.conns| ::
              && InFlight(s', c) == InFlight(s, c) && Held(s', c) == Held(s, c)
              && WrittenInFlight(s', c) == WrittenInFlight(s, c)
  {
    hide QueueLockOk;
  }

  /** Steps before a pop: locking, testing, waiting, leaving. */
  lemma IdleStepKeeps(cfg: Config, s: State, w: nat, pc: WorkerPc, lock: Option<Thread>, s': State)
    requires Inv(cfg, s) && w < |s.workers| && s' == s.(lock := lock).SetWorker(w, pc)
    requires Idle(s.workers[w]) && Idle(pc)
    requires WorkerHoldsQueue(pc) <==> lock == Some(WorkerThread(w))
    requires lock == s.lock || (s.lock.None? && lock == Some(WorkerThread(w)))
             || (s.lock == Some(WorkerThread(w)) && lock.None?)
    requires WorkerOk(s', pc)
    requires Unpopped(pc) >= Unpopped(s.workers[w]) || s.queue == [] || !s.running
    requires pc.Asleep? ==> s.queue == []
    ensures Inv(cfg, s')
  {
    hide QueueLockOk, NodeLockOk, SocketsDistinct, RegistryOk, QueueOk, WorkersOk, ConservationOk, StreamsOk;
    hide ConnsOk, NotEmptyOk, NotFullOk;
    hide Names, Sum, WorkerSleeps;
    QueueLockKept(s, s', WorkerThread(w));
    NodeLockKept(s, s');
    DescriptorsKept(s, s');
    QueueKept(cfg, s, s');
    WorkersKept(s, s', w);
    IdleStepKeepsRecords(cfg, s, w, pc, lock, s');
    ConnsKept(cfg, s, s');
    SumUpdate(s.workers, w, pc, Unpopped);
    SumUpdate(s.workers, w, pc, OwesNotFull);
    SleepersKept(s, s', w);
    NotEmptyKept(s, s');
    NotFullKept(cfg, s, s');
  }

  // ---------------------------------------------------------------- popping a record

  lemma {:induction false} FilterCons(queue: seq<Record>, socket: int)
    requires queue != []
    ensures Filter(queue, socket) == (if queue[0].socket == socket then [queue[0].path]
            else []) + Filter(queue[1..], socket)
  {
    if |queue| > 1 {
      FilterCons(queue[..|queue| - 1], socket);
      assert queue[..|queue| - 1][1..] == queue[1..][..|queue| - 2];
    }
  }

  lemma PopKeepsConservation(s: State, w: nat, s': State)
    requires ConservationOk(s) && s.lock == Some(WorkerThread(w)) && w < |s.workers| && s.workers[w].Pop?
             && s.queue != []
    requires s' == s.(queue := s.queue[1..]).SetWorker(w, Find(s.queue[0]))
    ensures ConservationOk(s')
  {
    hide Filter, Registered;
    forall c | 0 <= c < |s.conns|
      ensures Conserved(s', c)
    {
      assert Conserved(s, c);
      FilterCons(s.queue, s.conns[c].request.socket);
      assert InFlight(s', c) == InFlight(s, c) && Held(s, c) == [];
    }
  }

  lemma PopKeeps(cfg: Config, s: State, w: nat, s': State)
    requires Inv(cfg, s) && w < |s.workers| && s.workers[w].Pop? && s.queue != []
    requires s' == s.(queue := s.queue[1..]).SetWorker(w, Find(s.queue[0]))
    ensures Inv(cfg, s')
  {
    hide NodeLockOk, SocketsDistinct, RegistryOk, WorkersOk, ConservationOk, StreamsOk, ConnsOk, NotEmptyOk, NotFullOk;
    hide Names, Sum, WorkerSleeps;
    QueueLockKept(s, s', WorkerThread(w));
    NodeLockKept(s, s');
    DescriptorsKept(s, s');
    QueueKept(cfg, s, s');
    WorkersKept(s, s', w);
    PopKeepsConservation(s, w, s');
    StreamsKept(cfg, s, s');
    ConnsKept(cfg, s, s');
    SumUpdate(s.workers, w, s'.workers[w], Unpopped);
    SumUpdate(s.workers, w, s'.workers[w], OwesNotFull);
    SleepersKept(s, s', w);
    NotEmptyKept(s, s');
    NotFullKept(cfg, s, s');
  }

  // ---------------------------------------------------------------- finding and taking the node

  /** The lookup of a socket that names a registered connection finds that connection. */
  lemma {:induction false} LookupFinds(registry: seq<RegistryNode>, node: RegistryNode)
    requires node in registry
    requires forall r | r in registry && r.socket == node.socket :: r == node
    ensures FindNode(registry, node.socket) == Some(node.conn)
  {
    if registry[0] != node {
      LookupFinds(registry[1..], node);
    }
  }

  lemma LookupSucceeds(s: State, socket: int)
    requires SocketsDistinct(s) && RegistryOk(s) && Names(s, socket)
    ensures FindNode(s.registry, socket).Some?
    ensures var c := FindNode(s.registry, socket).value; AtNode(s, Record(socket, ""), c)
    ensures forall d | 0 <= d < |s.conns| && Registered(s.conns[d].comm) && s.conns[d].request.socket == socket ::
              FindNode(s.registry, socket) == Some(d)
  {
    hide FindNode;
    forall c | 0 <= c < |s.conns| && Registered(s.conns[c].comm) && s.conns[c].request.socket == socket
      ensures FindNode(s.registry, socket) == Some(c)
    {
      LookupFinds(s.registry, RegistryNode(socket, c));
    }
  }

  /** A worker whose hold on nodes and whose record stay the same. */
  lemma BusyStepKeepsConservation(s: State, w: nat, pc: WorkerPc, lock: Option<Thread>, s': State)
    requires ConservationOk(s) && QueueLockOk(s) && w < |s.workers| && s' == s.(lock := lock).SetWorker(w, pc)
    requires s.lock == Some(WorkerThread(w)) && (lock == s.lock || lock.None?)
    requires Transmitting(pc) == Transmitting(s.workers[w])
    requires forall c | 0 <= c < |s.conns| && Registered(s.conns[c].comm) :: Held(s', c) == Held(s, c)
    ensures ConservationOk(s')
  {
    hide ConservationOk, QueueLockOk, Held, Registered, Transmitting;
    forall c | 0 <= c < |s.conns|
      ensures InFlight(s', c) == InFlight(s, c)
    {
    }
    ConservationKept(s, s');
  }

  lemma FindKeeps(cfg: Config, s: State, w: nat, s': State)
    requires Inv(cfg, s) && w < |s.workers| && s.workers[w].Find?
    requires var rec := s.workers[w].rec;
             s' == s.SetWorker(w, match FindNode(s.registry, rec.socket)
                                  case Some(node) => LockNode(rec, node)
                                  case None => Crashed)
    ensures Inv(cfg, s')
  {
    hide NodeLockOk, SocketsDistinct, RegistryOk, QueueOk, ConservationOk, StreamsOk, ConnsOk, NotEmptyOk, NotFullOk;
    hide Names, Sum, WorkerSleeps, FindNode;
    var rec := s.workers[w].rec;
    assert WorkerOk(s, s.workers[w]);
    LookupSucceeds(s, rec.socket);
    QueueLockKept(s, s', WorkerThread(w));
    NodeLockKept(s, s');
    DescriptorsKept(s, s');
    QueueKept(cfg, s, s');
    WorkersKept(s, s', w);
    BusyStepKeepsConservation(s, w, s'.workers[w], s.lock, s');
    StreamsKept(cfg, s, s');
    ConnsKept(cfg, s, s');
    SumUpdate(s.workers, w, s'.workers[w], Unpopped);
    SumUpdate(s.workers, w, s'.workers[w], OwesNotFull);
    SleepersKept(s, s', w);
    NotEmptyKept(s, s');
    NotFullKept(cfg, s, s');
  }

  /** While worker `w` works on `node`, it has nothing to do with any other connection. */
  lemma OthersUntouched(s: State, w: nat, node: nat, s': State)
    requires NodeLockOk(s) && w < |s.workers| && node < |s.conns| && SameSizes(s, s')
    requires NodeHeld(s.workers[w]).None? || NodeHeld(s.workers[w]) == Some(node)
    requires forall v | 0 <= v < |s.workers| && v != w :: s'.workers[v] == s.workers[v]
    requires forall c | 0 <= c < |s.conns| && c != node :: s'.conns[c].holder == s.conns[c].holder
    ensures forall c | 0 <= c < |s.conns| && c != node ::
              InFlight(s', c) == InFlight(s, c) && WrittenInFlight(s', c) == WrittenInFlight(s, c)
  {
    hide NodeHeld, Transmitting;
  }

  lemma TakeKeepsLocks(s: State, w: nat, rec: Record, node: nat, s': State)
    requires NodeLockOk(s) && QueueLockOk(s) && w < |s.workers| && node < |s.conns|
    requires s.workers[w] == LockNode(rec, node) && s.conns[node].holder.None?
    requires s' == s.SetConn(node, s.conns[node].(holder := Some(w))).SetWorker(w, UnlockQueue(rec, node))
    ensures NodeLockOk(s') && QueueLockOk(s')
  {
    assert NodeHeld(s'.workers[w]) == Some(node);
  }

  lemma TakeKeepsRecords(cfg: Config, s: State, w: nat, rec: Record, node: nat, s': State)
    requires NodeLockOk(s) && ConservationOk(s) && StreamsOk(cfg, s) && s.lock == Some(WorkerThread(w))
    requires w < |s.workers| && node < |s.conns|
    requires s.workers[w] == LockNode(rec, node) && s.conns[node].holder.None?
    requires s' == s.SetConn(node, s.conns[node].(holder := Some(w))).SetWorker(w, UnlockQueue(rec, node))
    ensures ConservationOk(s') && StreamsOk(cfg, s')
  {
    OthersUntouched(s, w, node, s');
    assert InFlight(s, node) == [] && Held(s, node) == [rec.path];
    assert InFlight(s', node) == [rec.path] && Held(s', node) == [];
    assert WrittenInFlight(s, node) == WrittenInFlight(s', node) == 0;
    assert forall c | 0 <= c < |s.conns| && c != node :: Held(s', c) == Held(s, c);
    hide NodeLockOk, ConservationOk, StreamsOk, InFlight, Held, WrittenInFlight, Registered, Live, BeforeStream;
    ConservationKept(s, s');
    StreamsKept(cfg, s, s');
  }

  lemma TakeKeeps(cfg: Config, s: State, w: nat, rec: Record, node: nat, s': State)
    requires Inv(cfg, s) && w < |s.workers| && node < |s.conns|
    requires s.workers[w] == LockNode(rec, node) && s.conns[node].holder.None?
    requires s' == s.SetConn(node, s.conns[node].(holder := Some(w))).SetWorker(w, UnlockQueue(rec, node))
    ensures Inv(cfg, s')
  {
    hide NodeLockOk, SocketsDistinct, RegistryOk, QueueOk, ConservationOk, StreamsOk, ConnsOk, NotEmptyOk, NotFullOk;
    hide Names, Sum, WorkerSleeps;
    assert WorkerOk(s, s.workers[w]);
    TakeKeepsLocks(s, w, rec, node, s');
    TakeKeepsRecords(cfg, s, w, rec, node, s');
    ServiceStepKeeps(cfg, s, w, node, s');
  }

  /** What a step of a worker on its own node leaves to check: locks, records and streams. */
  lemma ServiceStepKeeps(cfg: Config, s: State, w: nat, node: nat, s': State)
    requires Inv(cfg, s) && w < |s.workers| && node < |s.conns|
    requires SameSizes(s, s') && s'.running == s.running && s'.main == s.main && s'.queue == s.queue && s'.registry
             == s.registry
    requires forall v | 0 <= v < |s.workers| && v != w :: s'.workers[v] == s.workers[v]
    requires forall c | 0 <= c < |s.conns| && c != node :: s'.conns[c] == s.conns[c]
    requires ServedBy(s.conns[node], s'.conns[node]) && s'.conns[node].comm == s.conns[node].comm
    requires s'.workers == s.workers[w := s'.workers[w]] && s'.conns == s.conns[node := s'.conns[node]]
    requires Unpopped(s'.workers[w]) >= Unpopped(s.workers[w]) && OwesNotFull(s'.workers[w])
             == OwesNotFull(s.workers[w])
    requires !s'.workers[w].Asleep? && WorkerOk(s, s'.workers[w])
    requires QueueLockOk(s') && NodeLockOk(s') && ConservationOk(s') && StreamsOk(cfg, s')
    ensures Inv(cfg, s')
  {
    hide QueueLockOk, NodeLockOk, SocketsDistinct, RegistryOk, QueueOk, WorkersOk, ConservationOk, StreamsOk;
    hide ConnsOk, NotEmptyOk, NotFullOk;
    hide Names, Sum, WorkerSleeps;
    DescriptorsKept(s, s');
    QueueKept(cfg, s, s');
    assert WorkerOk(s', s'.workers[w]) by {
      hide AtNode;
    }
    WorkersKept(s, s', w);
    ConnsKept(cfg, s, s');
    SumUpdate(s.workers, w, s'.workers[w], Unpopped);
    SumUpdate(s.workers, w, s'.workers[w], OwesNotFull);
    SumUpdate(s.conns, node, s'.conns[node], OwesNotEmpty);
    SumUpdate(s.conns, node, s'.conns[node], AwakeInserter);
    SleepersKept(s, s', w);
    NotEmptyKept(s, s');
    NotFullKept(cfg, s, s');
  }

  // ---------------------------------------------------------------- after the pop

  lemma UnlockQueueKeeps(cfg: Config, s: State, w: nat, s': State)
    requires Inv(cfg, s) && w < |s.workers| && s.workers[w].UnlockQueue?
    requires s' == s.(lock := None).SetWorker(w, SignalNotFull(s.workers[w].rec, s.workers[w].node))
    ensures Inv(cfg, s')
  {
    hide NodeLockOk, SocketsDistinct, RegistryOk, QueueOk, ConservationOk, StreamsOk, ConnsOk, NotEmptyOk, NotFullOk;
    hide Names, Sum, WorkerSleeps;
    assert WorkerOk(s, s.workers[w]);
    QueueLockKept(s, s', WorkerThread(w));
    NodeLockKept(s, s');
    BusyStepKeepsConservation(s, w, s'.workers[w], None, s');
    StreamsKept(cfg, s, s');
    var node := s.workers[w].node;
    assert s'.conns == s.conns[node := s'.conns[node]];
    ServiceStepKeeps(cfg, s, w, node, s');
  }

  lemma SignalKeepsRecords(cfg: Config, s: State, w: nat, s': State)
    requires ConservationOk(s) && StreamsOk(cfg, s) && QueueLockOk(s)
    requires w < |s.workers| && s.workers[w].SignalNotFull? && SameSizes(s, s')
    requires s'.workers == s.workers[w := Send(s.workers[w].rec, s.workers[w].node, 0)] && s'.registry == s.registry
    requires s'.lock == s.lock && s'.queue == s.queue
    requires forall c | 0 <= c < |s.conns| ::
               s'.conns[c] == s.conns[c] || (s.conns[c].comm.Asleep? && s'.conns[c]
                   == s.conns[c].(comm := CommPc.Reacquire))
    ensures ConservationOk(s') && StreamsOk(cfg, s')
  {
    hide ConservationOk, StreamsOk, QueueLockOk;
    ConservationKept(s, s');
    StreamsKept(cfg, s, s');
  }

  lemma SignalKeeps(cfg: Config, s: State, w: nat, wake: Option<nat>, s': State)
    requires Inv(cfg, s) && w < |s.workers| && s.workers[w].SignalNotFull?
    requires WorkerSignals(s, w, s.workers[w].rec, s.workers[w].node, wake) == Some(s')
    ensures Inv(cfg, s')
  {
    hide QueueLockOk, NodeLockOk, SocketsDistinct, RegistryOk, QueueOk, ConservationOk, StreamsOk, ConnsOk;
    hide NotEmptyOk, NotFullOk;
    hide Names, Sum, WorkerSleeps, AtNode;
    assert WorkerOk(s, s.workers[w]);
    QueueLockKept(s, s', WorkerThread(w)) by {
      assert QueueLockOk(s);
      LockExcludes(s, w);
    }
    NodeLockKept(s, s');
    SignalKeepsRecords(cfg, s, w, s');
    DescriptorsKept(s, s');
    QueueKept(cfg, s, s');
    WorkersKept(s, s', w);
    ConnsKept(cfg, s, s');
    SignalKeepsWakeUps(cfg, s, w, wake, s');
  }

  lemma LockExcludes(s: State, w: nat)
    requires QueueLockOk(s) && w < |s.workers|
    ensures WorkerHoldsQueue(s.workers[w]) <==> s.lock == Some(WorkerThread(w))
  {
  }

  lemma SignalKeepsWakeUps(cfg: Config, s: State, w: nat, wake: Option<nat>, s': State)
    requires NotEmptyOk(s) && NotFullOk(cfg, s) && w < |s.workers| && s.workers[w].SignalNotFull?
    requires WorkerSignals(s, w, s.workers[w].rec, s.workers[w].node, wake) == Some(s')
    ensures NotEmptyOk(s') && NotFullOk(cfg, s')
  {
    hide NotEmptyOk, Sum, WorkerSleeps;
    SumUpdate(s.workers, w, s'.workers[w], Unpopped);
    SumUpdate(s.workers, w, s'.workers[w], OwesNotFull);
    SleepersKept(s, s', w);
    if wake.Some? {
      var c := wake.value;
      SumUpdate(s.conns, c, s'.conns[c], OwesNotEmpty);
      SumUpdate(s.conns, c, s'.conns[c], AwakeInserter);
      NotFullKept(cfg, s, s');
    }
    NotEmptyKept(s, s');
  }

  // ---------------------------------------------------------------- writing

  /** A descriptor number reaches the connection it was accepted for. */
  lemma {:induction false} WritesReachNode(s: State, c: nat, from: nat)
    requires SocketsDistinct(s) && from <= c < |s.conns| && Live(s.conns[c].comm)
    ensures OpenConn(s.conns, s.conns[c].request.socket, from) == Some(c)
    decreases c - from
  {
    if from < c {
      WritesReachNode(s, c, from + 1);
    }
  }

  /** Record `i` lies in the stream between its two bases. */
  lemma StreamAt(cfg: Config, r: Request, i: nat)
    requires i < |Records(r)|
    ensures Base(cfg, r, i + 1) == Base(cfg, r, i) + |Encode(cfg.disk, Records(r)[i])| <= |Stream(cfg, r)|
    ensures Stream(cfg, r)[Base(cfg, r, i)..Base(cfg, r, i + 1)] == Encode(cfg.disk, Records(r)[i])
  {
    hide Encode, EncodeAll, BigEndian;
    var head := BigEndian(cfg.blockSize, 4);
    RecordAt(cfg.disk, Records(r), i);
    var upTo, all := EncodeAll(cfg.disk, Records(r)[..i]), EncodeAll(cfg.disk, Records(r));
    var record := Encode(cfg.disk, Records(r)[i]);
    assert all[..|upTo| + |record|] == upTo + record;
    assert all[|upTo|..|upTo| + |record|] == all[..|upTo| + |record|][|upTo|..];
    SliceBehind(head, all, |upTo|, |upTo| + |record|);
  }

  lemma SliceBehind(head: string, all: string, a: nat, b: nat)
    requires a <= b <= |all|
    ensures (head + all)[|head| + a..|head| + b] == all[a..b]
  {
  }

  lemma PrefixGrows(stream: string, down: string, base: nat, bytes: string, written: nat, n: nat)
    requires down <= stream && |down| == base + written && base + |bytes| <= |stream|
    requires stream[base..base + |bytes|] == bytes && written + n <= |bytes|
    ensures down + bytes[written..written + n] <= stream
  {
    SliceOfSlice(stream, base, base + |bytes|, written, written + n);
    assert stream[..base + written + n] == stream[..base + written] + stream[base + written..base + written + n];
  }

  /** The connection after a write of `n` more bytes of its record in flight. */
  lemma WriteKeepsStream(cfg: Config, k: Conn, written: nat, n: nat, k': Conn)
    requires k.sent < k.inserted <= |Records(k.request)| && DownOk(cfg, k, written)
    requires var bytes := Encode(cfg.disk, Records(k.request)[k.sent]);
             && n > 0 && written + n <= |bytes|
             && k' == k.(down := k.down + bytes[written..written + n], sent := if written + n < |bytes| then k.sent
                 else k.sent + 1)
    ensures DownOk(cfg, k', if k'.sent == k.sent then written + n else 0)
  {
    StreamAt(cfg, k.request, k.sent);
    hide Base, Stream, Encode;
    var bytes := Encode(cfg.disk, Records(k.request)[k.sent]);
    PrefixGrows(Stream(cfg, k.request), k.down, Base(cfg, k.request, k.sent), bytes, written, n);
  }

  /** The record a worker sends is the next one of its connection's listing. */
  lemma SendsNextRecord(s: State, w: nat)
    requires ConservationOk(s) && NodeLockOk(s) && w < |s.workers| && s.workers[w].Send? && WorkerOk(s, s.workers[w])
    ensures var node, k := s.workers[w].node, s.conns[s.workers[w].node];
            && k.holder == Some(w) && k.sent < k.inserted <= |Records(k.request)|
            && Records(k.request)[k.sent] == s.workers[w].rec.path
  {
    hide Held, Filter, Registered;
    var node := s.workers[w].node;
    assert NodeHeld(s.workers[w]) == Some(node);
    var k := s.conns[node];
    assert Conserved(s, node);
    assert InFlight(s, node) == [s.workers[w].rec.path];
    assert Records(k.request)[k.sent..k.inserted][0] == s.workers[w].rec.path;
  }

  lemma WriteKeepsRecords(cfg: Config, s: State, w: nat, n: nat, s': State)
    requires NodeLockOk(s) && ConservationOk(s) && StreamsOk(cfg, s) && SocketsDistinct(s) && QueueLockOk(s)
    requires w < |s.workers| && s.workers[w].Send? && WorkerOk(s, s.workers[w])
    requires WorkerWrites(cfg, s, w, s.workers[w].rec, s.workers[w].node, s.workers[w].written, n) == Some(s')
    ensures var node := s.workers[w].node;
            && SameSizes(s, s') && s'.workers == s.workers[w := s'.workers[w]] && s'.conns
                == s.conns[node := s'.conns[node]]
            && s' == s.(workers := s'.workers, conns := s'.conns)
            && ServedBy(s.conns[node], s'.conns[node]) && s'.conns[node].comm == s.conns[node].comm
            && s'.conns[node].holder == s.conns[node].holder
            && (s'.workers[w] == UnlockNode(node) || s'.workers[w]
                == Send(s.workers[w].rec, node, s.workers[w].written + n))
    ensures ConservationOk(s') && StreamsOk(cfg, s')
  {
    hide Encode, OpenConn, SocketsDistinct, DownOk, ConservationOk, AtNode, Live, Registered, QueueLockOk;
    var Send(rec, node, written) := s.workers[w];
    SendsNextRecord(s, w);
    WriteTargets(s, w);
    OthersUntouched(s, w, node, s');
    assert DownOk(cfg, s.conns[node], WrittenInFlight(s, node));
    hide NodeLockOk;
    WriteKeepsStream(cfg, s.conns[node], written, n, s'.conns[node]);
    WriteKeepsConservation(s, w, node, s');
  }

  lemma WriteTargets(s: State, w: nat)
    requires SocketsDistinct(s) && w < |s.workers| && s.workers[w].Send? && WorkerOk(s, s.workers[w])
    ensures var node := s.workers[w].node;
            && node < |s.conns| && OpenConn(s.conns, s.workers[w].rec.socket, 0) == Some(node)
                && Registered(s.conns[node].comm)
  {
    WritesReachNode(s, s.workers[w].node, 0);
  }

  lemma WriteKeepsConservation(s: State, w: nat, node: nat, s': State)
    requires ConservationOk(s) && QueueLockOk(s) && w < |s.workers| && node < |s.conns| && s.conns[node].holder
             == Some(w)
    requires s.workers[w].Send? && SameSizes(s, s') && s'.lock == s.lock && s'.queue == s.queue
    requires s'.workers == s.workers[w := s'.workers[w]]
    requires s'.workers[w] == UnlockNode(node) || (s'.workers[w].Send? && s'.workers[w].rec == s.workers[w].rec)
    requires forall c | 0 <= c < |s.conns| && c != node ::
               s'.conns[c] == s.conns[c] && InFlight(s', c) == InFlight(s, c)
    requires var k, k' := s.conns[node], s'.conns[node];
             && k'.request == k.request && k'.comm == k.comm && k'.inserted == k.inserted && k'.holder == k.holder
             && k.sent < k.inserted && k'.sent == (if s'.workers[w].Send? then k.sent else k.sent + 1)
             && Registered(k.comm)
    ensures ConservationOk(s')
  {
    hide Filter, Registered;
    assert !WorkerHoldsQueue(s.workers[w]);
    forall c | 0 <= c < |s.conns|
      ensures Conserved(s', c)
    {
      assert Conserved(s, c);
      assert Held(s', c) == Held(s, c);
      if c == node {
        HeadFirst(Records(s.conns[node].request), s.conns[node].sent, s.conns[node].inserted);
      }
    }
  }

  lemma HeadFirst(records: seq<string>, a: nat, b: nat)
    requires a < b <= |records|
    ensures records[a..b] == [records[a]] + records[a + 1..b]
  {
  }

  lemma WorkerIsOk(s: State, w: nat)
    requires WorkersOk(s) && w < |s.workers|
    ensures WorkerOk(s, s.workers[w])
    ensures s.workers[w].Send? ==> s.workers[w].node < |s.conns|
  {
  }

  lemma WriteKeepsLocks(s: State, w: nat, node: nat, s': State)
    requires QueueLockOk(s) && NodeLockOk(s) && w < |s.workers| && node < |s.conns|
    requires SameSizes(s, s') && s'.lock == s.lock
    requires s'.workers == s.workers[w := s'.workers[w]] && s'.conns == s.conns[node := s'.conns[node]]
    requires s'.conns[node].comm == s.conns[node].comm && s'.conns[node].holder == s.conns[node].holder
    requires NodeHeld(s'.workers[w]) == NodeHeld(s.workers[w]) && !WorkerHoldsQueue(s'.workers[w])
             && !WorkerHoldsQueue(s.workers[w])
    ensures QueueLockOk(s') && NodeLockOk(s')
  {
    LockExcludes(s, w);
    hide QueueLockOk, NodeLockOk;
    QueueLockKept(s, s', WorkerThread(w));
    NodeLockKept(s, s');
  }

  lemma WriteKeeps(cfg: Config, s: State, w: nat, n: nat, s': State)
    requires Inv(cfg, s) && w < |s.workers| && s.workers[w].Send?
    requires WorkerWrites(cfg, s, w, s.workers[w].rec, s.workers[w].node, s.workers[w].written, n) == Some(s')
    ensures Inv(cfg, s')
  {
    hide WorkerWrites, QueueLockOk, NodeLockOk, SocketsDistinct, RegistryOk, QueueOk, WorkersOk, ConservationOk;
    hide StreamsOk, ConnsOk, NotEmptyOk, NotFullOk;
    hide AtNode, Registered, Live;
    WorkerIsOk(s, w);
    var node := s.workers[w].node;
    WriteKeepsRecords(cfg, s, w, n, s');
    WriteKeepsLocks(s, w, node, s');
    ServiceStepKeeps(cfg, s, w, node, s');
  }

  // ---------------------------------------------------------------- dropping the node

  lemma DropKeepsLocks(s: State, w: nat, node: nat, s': State)
    requires NodeLockOk(s) && QueueLockOk(s)
    requires w < |s.workers| && node < |s.conns| && s.workers[w] == UnlockNode(node)
    requires s' == s.SetConn(node, s.conns[node].(holder := None)).SetWorker(w, Top)
    ensures NodeLockOk(s') && QueueLockOk(s') && s.lock != Some(WorkerThread(w)) && s.conns[node].holder == Some(w)
  {
    assert NodeHeld(s.workers[w]) == Some(node);
    assert s.lock != Some(WorkerThread(w));
  }

  lemma DropKeepsRecords(cfg: Config, s: State, w: nat, node: nat, s': State)
    requires NodeLockOk(s) && ConservationOk(s) && StreamsOk(cfg, s) && QueueLockOk(s)
    requires w < |s.workers| && node < |s.conns| && s.workers[w] == UnlockNode(node)
    requires s' == s.SetConn(node, s.conns[node].(holder := None)).SetWorker(w, Top)
    ensures NodeLockOk(s') && QueueLockOk(s') && ConservationOk(s') && StreamsOk(cfg, s')
  {
    hide ConservationOk, StreamsOk, Registered, Live, BeforeStream;
    DropKeepsLocks(s, w, node, s');
    OthersUntouched(s, w, node, s');
    hide NodeLockOk, QueueLockOk;
    ConservationKept(s, s');
    StreamsKept(cfg, s, s');
  }

  lemma DropKeeps(cfg: Config, s: State, w: nat, node: nat, s': State)
    requires Inv(cfg, s) && w < |s.workers| && node < |s.conns| && s.workers[w] == UnlockNode(node)
    requires s' == s.SetConn(node, s.conns[node].(holder := None)).SetWorker(w, Top)
    ensures Inv(cfg, s')
  {
    hide QueueLockOk, NodeLockOk, SocketsDistinct, RegistryOk, QueueOk, WorkersOk, ConservationOk, StreamsOk;
    hide ConnsOk, NotEmptyOk, NotFullOk;
    DropKeepsRecords(cfg, s, w, node, s');
    ServiceStepKeeps(cfg, s, w, node, s');
  }

  // ---------------------------------------------------------------- all worker steps

  /** Every step of every worker keeps the invariant. */
  lemma WorkerStepKeeps(cfg: Config, s: State, w: nat, wake: Option<nat>, n: nat, s': State)
    requires Inv(cfg, s) && w < |s.workers| && WorkerStep(cfg, s, w, wake, n) == Some(s')
    ensures Inv(cfg, s')
  {
    assert WorkerOk(s, s.workers[w]);
    LockExcludes(s, w);
    hide QueueLockOk, NodeLockOk, SocketsDistinct, RegistryOk, QueueOk, WorkersOk, ConservationOk, StreamsOk;
    hide ConnsOk, NotEmptyOk, NotFullOk;
    hide WorkerWrites, WorkerSignals, FindNode;
    match s.workers[w]
    case Pop => PopKeeps(cfg, s, w, s');
    case Find(_) => FindKeeps(cfg, s, w, s');
    case LockNode(rec, node) => TakeKeeps(cfg, s, w, rec, node, s');
    case UnlockQueue(_, _) => UnlockQueueKeeps(cfg, s, w, s');
    case SignalNotFull(_, _) => SignalKeeps(cfg, s, w, wake, s');
    case Send(_, _, _) => WriteKeeps(cfg, s, w, n, s');
    case UnlockNode(node) => DropKeeps(cfg, s, w, node, s');
    case Asleep =>
    case Exited =>
    case Crashed =>
    case _ => IdleStepKeeps(cfg, s, w, s'.workers[w], s'.lock, s');
  }
}
