/** The server's threads over the linked queues of sources/Queue.c: every stretch of code that touches
    one of the two queues, on the heap, refines the step of the state machine that stands for it. */
module ServerThreads {
  import opened Wire
  import opened Protocol
  import opened Invariants
  import opened LinkedQueue
  import FileTree
  import Extractor
  import System
  import EndToEnd
  import Rooms

  // ---------------------------------------------------------------- queue contents as machine sequences

  function RecordOf(item: Item): Record {
    Record(item.socket, match item.data case FileName(name) => name case SocketMutex(_) => "")
  }

  function RecordsOf(items: seq<Item>): (r: seq<Record>)
    ensures |r| == |items| && forall i | 0 <= i < |items| :: r[i] == RecordOf(items[i])
  {
    seq(|items|, i requires 0 <= i < |items| => RecordOf(items[i]))
  }

  function NodeOf(item: Item): RegistryNode {
    RegistryNode(item.socket, match item.data case FileName(_) => 0 case SocketMutex(owner) => owner)
  }

  function NodesOf(items: seq<Item>): (r: seq<RegistryNode>)
    ensures |r| == |items| && forall i | 0 <= i < |items| :: r[i] == NodeOf(items[i])
  {
    seq(|items|, i requires 0 <= i < |items| => NodeOf(items[i]))
  }

  lemma {:induction false} FindNodeIsFirst(registry: seq<RegistryNode>, socket: int, i: nat)
    requires i <= |registry| && forall j | 0 <= j < i :: registry[j].socket != socket
    requires i < |registry| ==> registry[i].socket == socket
    ensures FindNode(registry, socket) == if i < |registry| then Some(registry[i].conn) else None
  {
    if i > 0 {
      FindNodeIsFirst(registry[1..], socket, i - 1);
    }
  }

  lemma {:induction false} RemoveNodeIsFirst(registry: seq<RegistryNode>, node: RegistryNode, i: nat)
    requires i < |registry| && registry[i] == node && forall j | 0 <= j < i :: registry[j] != node
    ensures RemoveNode(registry, node) == registry[..i] + registry[i + 1..]
  {
    if i > 0 {
      RemoveNodeIsFirst(registry[1..], node, i - 1);
      assert registry[..i] + registry[i + 1..] == [registry[0]] + (registry[1..][..i - 1] + registry[1..][i..]);
    }
  }

  // ---------------------------------------------------------------- the server's shared state

  class Server {
    const cfg: Config
    var running: bool
    var main: MainPc
    const filesQueue: Queue
    const mutexSocketQueue: Queue
    var lock: Option<Thread>
    var workers: seq<WorkerPc>
    var conns: seq<Conn>
    /** The local variable `q_node` of each communication thread. */
    var qNodes: map<nat, QueueNode>

    /** Two separate well-formed queues, and each registered connection's node is in the registry. */
    ghost predicate Valid()
      reads this, filesQueue, mutexSocketQueue, filesQueue.nodes, mutexSocketQueue.nodes
    {
      && filesQueue != mutexSocketQueue
      && filesQueue.Valid() && mutexSocketQueue.Valid() && filesQueue.Footprint() !! mutexSocketQueue.Footprint()
      && (forall c: nat | c < |conns| && Registered(conns[c].comm) ::
            c in qNodes && qNodes[c] in mutexSocketQueue.nodes
            && qNodes[c].socket == conns[c].request.socket && qNodes[c].data == SocketMutex(c))
    }

    ghost function Snapshot(): State
      reads this, filesQueue, mutexSocketQueue
    {
      State(running, main, RecordsOf(filesQueue.Contents()), lock, NodesOf(mutexSocketQueue.Contents()), workers, conns)
    }

    /** Both queues empty, every worker at the top of its loop, no connection accepted yet. */
    constructor (cfg: Config, poolSize: nat, requests: seq<Request>)
      requires GoodConfig(cfg) && poolSize >= 1 && forall r | r in requests :: GoodRequest(r)
      ensures Valid() && this.cfg == cfg && Init(cfg, Snapshot()) && |workers| == poolSize && |conns| == |requests|
      ensures forall c | 0 <= c < |requests| :: conns[c] == NewConn(requests[c]) && conns[c].request == requests[c]
    {
      this.cfg := cfg;
      running, main, lock, qNodes := true, AtTest, None, map[];
      filesQueue := new Queue();
      mutexSocketQueue := new Queue();
      workers := seq(poolSize, _ => Top);
      conns := seq(|requests|, i requires 0 <= i < |requests| => NewConn(requests[i]));
    }

    /** The nodes of both queues. */
    ghost function Nodes(): set<object>
      reads this, filesQueue, mutexSocketQueue
    {
      filesQueue.Footprint() + mutexSocketQueue.Footprint()
    }

    ghost function FilesSeq(): seq<Record>
      reads this, filesQueue
    {
      RecordsOf(filesQueue.Contents())
    }

    ghost function RegistrySeq(): seq<RegistryNode>
      reads this, mutexSocketQueue
    {
      NodesOf(mutexSocketQueue.Contents())
    }

    /** `Queue_Pop(Files_Queue)`; `None` stands for the NULL it returns on an empty queue. */
    method PopRecord() returns (rec: Option<Record>)
      requires Valid()
      modifies filesQueue
      ensures Valid() && RegistrySeq() == old(RegistrySeq())
      ensures rec == if old(FilesSeq()) == [] then None else Some(old(FilesSeq())[0])
      ensures FilesSeq() == if old(FilesSeq()) == [] then [] else old(FilesSeq())[1..]
      ensures Nodes() <= old(Nodes())
    {
      hide Registered;
      var node := filesQueue.Pop();
      if node == null {
        rec := None;
      } else {
        rec := Some(RecordOf(Item(node.socket, node.data)));
      }
    }

    /** `Queue_Find(Mutex_Socket_Queue, socket)`: the connection whose mutex the node found holds. */
    method FindOwner(socket: int) returns (owner: Option<nat>)
      requires Valid()
      ensures owner == FindNode(RegistrySeq(), socket)
    {
      hide Registered, FindNode, Queue.Footprint;
      var node := mutexSocketQueue.Find(socket);
      if node == null {
        FindNodeIsFirst(RegistrySeq(), socket, |RegistrySeq()|);
        owner := None;
      } else {
        ghost var i: nat :| i < |mutexSocketQueue.nodes| && mutexSocketQueue.nodes[i] == node && node.socket == socket
                            && forall j | 0 <= j < i :: mutexSocketQueue.nodes[j].socket != socket;
        FindNodeIsFirst(RegistrySeq(), socket, i);
        owner := Some(match node.data case FileName(_) => 0 case SocketMutex(c) => c);
      }
    }

    method InsertRecord(rec: Record)
      requires Valid()
      modifies filesQueue, filesQueue.Footprint()
      ensures Valid() && RegistrySeq() == old(RegistrySeq())
      ensures FilesSeq() == old(FilesSeq()) + [rec]
      ensures fresh(Nodes() - old(Nodes()))
    {
      hide Registered;
      var node := new QueueNode(rec.socket, FileName(rec.path));
      filesQueue.Insert(node);
    }

    method InsertNode(c: nat)
      requires Valid() && c < |conns| && !Registered(conns[c].comm)
      modifies mutexSocketQueue, mutexSocketQueue.Footprint(), this`qNodes
      ensures Valid() && FilesSeq() == old(FilesSeq())
      ensures RegistrySeq() == old(RegistrySeq()) + [RegistryNode(conns[c].request.socket, c)]
      ensures c in qNodes && qNodes[c] in mutexSocketQueue.nodes
      ensures qNodes[c].socket == conns[c].request.socket && qNodes[c].data == SocketMutex(c)
      ensures fresh(Nodes() - old(Nodes()))
    {
      hide Registered;
      var node := new QueueNode(conns[c].request.socket, SocketMutex(c));
      mutexSocketQueue.Insert(node);
      qNodes := qNodes[c := node];
    }

    /** Removes connection `c`'s node; every other connection's node stays. */
    method DeleteNode(c: nat)
      requires Valid() && c < |conns| && Registered(conns[c].comm)
      requires forall i, j | 0 <= i < j < |RegistrySeq()| :: RegistrySeq()[i] != RegistrySeq()[j]
      modifies mutexSocketQueue, mutexSocketQueue.Footprint()
      ensures mutexSocketQueue.Valid() && filesQueue.Valid() && filesQueue.Footprint() !! mutexSocketQueue.Footprint()
      ensures FilesSeq() == old(FilesSeq())
      ensures RegistrySeq() == RemoveNode(old(RegistrySeq()), RegistryNode(conns[c].request.socket, c))
      ensures forall n | n in old(mutexSocketQueue.nodes) && n != qNodes[c] :: n in mutexSocketQueue.nodes
      ensures Nodes() <= old(Nodes())
    {
      hide Registered, RemoveNode, Items, IndexOf, NodesOf, RecordsOf;
      var node := qNodes[c];
      ghost var i := IndexOf(mutexSocketQueue.nodes, node);
      ghost var nodes, registry := mutexSocketQueue.nodes, RegistrySeq();
      assert registry[i] == RegistryNode(conns[c].request.socket, c);
      RemoveNodeIsFirst(registry, RegistryNode(conns[c].request.socket, c), i);
      mutexSocketQueue.Delete(node);
      assert RegistrySeq() == registry[..i] + registry[i + 1..];
      StillThere(nodes, i);
    }

    /** The queue is popped and the worker keeps the record (`sources/Server.c`, lines 424 to 426). */
    method WorkerPops(w: nat)
      requires Valid() && Inv(cfg, Snapshot()) && w < |workers| && workers[w].Pop?
      modifies filesQueue, this`workers
      ensures Valid() && Some(Snapshot()) == WorkerStep(cfg, old(Snapshot()), w, None, 0) && Inv(cfg, Snapshot())
      ensures fresh(Nodes() - old(Nodes()))
    {
      hide Inv, Registered, WorkerStep, Step, Queue.Valid, RecordsOf, NodesOf, Items;
      ghost var was := Snapshot();
      PopStepIs(cfg, was, w);
      var rec := PopRecord();
      workers := workers[w := match rec case Some(r) => Find(r) case None => Crashed];
      WorkerStepDone(cfg, was, w, Snapshot());
    }

    /** `Queue_Find` in the registry (line 428). */
    method WorkerFinds(w: nat)
      requires Valid() && Inv(cfg, Snapshot()) && w < |workers| && workers[w].Find?
      modifies this`workers
      ensures Valid() && Some(Snapshot()) == WorkerStep(cfg, old(Snapshot()), w, None, 0) && Inv(cfg, Snapshot())
    {
      hide Inv, Registered, FindNode, WorkerStep, Step, Queue.Valid, RecordsOf, NodesOf, Items;
      ghost var was := Snapshot();
      FindStepIs(cfg, was, w);
      var rec := workers[w].rec;
      var owner := FindOwner(rec.socket);
      workers := workers[w := match owner case Some(c) => LockNode(rec, c) case None => Crashed];
      WorkerStepDone(cfg, was, w, Snapshot());
    }

    /** The communication thread makes and registers its node (lines 29 to 32). */
    method CommRegisters(c: nat)
      requires Valid() && Inv(cfg, Snapshot()) && c < |conns| && conns[c].comm.Register?
      modifies this, mutexSocketQueue, mutexSocketQueue.Footprint(), filesQueue, filesQueue.Footprint()
      ensures Valid() && Some(Snapshot()) == CommStep(cfg, old(Snapshot()), c, None) && Inv(cfg, Snapshot())
      ensures fresh(Nodes() - old(Nodes()))
    {
      hide Inv, CommStep, Step, Queue.Valid, RecordsOf, NodesOf, Items;
      ghost var was := Snapshot();
      RegisterStepIs(cfg, was, c);
      InsertNode(c);
      conns := conns[c := conns[c].(comm := ReadDirectoryAck)];
      CommStepDone(cfg, was, c, Snapshot());
    }

    /** `while (Queue_Size(Files_Queue) >= max_queue_size)` (line 256). */
    method CommTests(c: nat)
      requires Valid() && Inv(cfg, Snapshot()) && c < |conns| && conns[c].comm.Test?
      modifies this`conns, this`lock
      ensures Valid() && Some(Snapshot()) == CommStep(cfg, old(Snapshot()), c, None) && Inv(cfg, Snapshot())
    {
      hide Inv, CommStep, Step, RecordsOf, NodesOf, Items;
      ghost var was := Snapshot();
      TestStepIs(cfg, was, c);
      if filesQueue.size >= cfg.capacity {
        lock := None;
        conns := conns[c := conns[c].(comm := CommPc.Asleep)];
      } else {
        conns := conns[c := conns[c].(comm := Insert)];
      }
      CommStepDone(cfg, was, c, Snapshot());
    }

    /** `while (Queue_isEmpty(Files_Queue) && RUNNING)` (line 417). */
    method WorkerTests(w: nat)
      requires Valid() && Inv(cfg, Snapshot()) && w < |workers| && workers[w].Test?
      modifies this`workers
      ensures Valid() && Some(Snapshot()) == WorkerStep(cfg, old(Snapshot()), w, None, 0) && Inv(cfg, Snapshot())
    {
      hide Inv;
      ghost var was := Snapshot();
      workers := workers[w := if filesQueue.IsEmpty() && running then GoWait else Check];
      WorkerStepDone(cfg, was, w, Snapshot());
    }

    /** The next record enters the queue (lines 249 to 262). */
    method CommInserts(c: nat)
      requires Valid() && Inv(cfg, Snapshot()) && c < |conns| && conns[c].comm.Insert?
      modifies this, mutexSocketQueue, mutexSocketQueue.Footprint(), filesQueue, filesQueue.Footprint()
      ensures Valid() && Some(Snapshot()) == CommStep(cfg, old(Snapshot()), c, None) && Inv(cfg, Snapshot())
      ensures fresh(Nodes() - old(Nodes()))
    {
      hide Inv, Records, CommStep, Step, Queue.Valid, RecordsOf, NodesOf, Items;
      ghost var was := Snapshot();
      NextRecordExists(cfg, was, c);
      InsertStepIs(cfg, was, c);
      var k := conns[c];
      InsertRecord(Record(k.request.socket, Records(k.request)[k.inserted]));
      conns := conns[c := k.(comm := Unlock, inserted := k.inserted + 1)];
      CommStepDone(cfg, was, c, Snapshot());
    }

    /** The communication thread takes its node out of the registry (lines 82 to 84). */
    method CommDeregisters(c: nat)
      requires Valid() && Inv(cfg, Snapshot()) && c < |conns| && conns[c].comm.Deregister?
      modifies this, mutexSocketQueue, mutexSocketQueue.Footprint(), filesQueue, filesQueue.Footprint()
      ensures Valid() && Some(Snapshot()) == CommStep(cfg, old(Snapshot()), c, None) && Inv(cfg, Snapshot())
      ensures fresh(Nodes() - old(Nodes()))
    {
      hide Inv, RemoveNode, CommStep, Step, Queue.Valid, RecordsOf, NodesOf, Items;
      ghost var was := Snapshot();
      RegistryHasNoDuplicates(cfg, was);
      DeregisterStepIs(cfg, was, c);
      DeleteNode(c);
      conns := conns[c := conns[c].(comm := Close)];
      CommStepDone(cfg, was, c, Snapshot());
    }

    // -------------------------------------------------------------- whole runs on the heap

    /** A stretch that touches no queue: mutexes, sockets, program counters and the clients. Every
        registered connection keeps its node, since only the registry's steps change which ones are. */
    method StepElsewhere(e: Event, next: State)
      requires Valid() && Inv(cfg, Snapshot()) && Step(cfg, Snapshot(), e) == Some(next) && !TouchesQueue(Snapshot(), e)
      modifies this`running, this`main, this`lock, this`workers, this`conns
      ensures Valid() && Snapshot() == next && Inv(cfg, next)
    {
      hide Inv, Step, Queue.Valid, RecordsOf, NodesOf, Items, Registered, TouchesQueue;
      ElsewhereIsElsewhere(cfg, Snapshot(), e, next);
      System.StepKeeps(cfg, Snapshot(), e, next);
      RegisteredStays(cfg, Snapshot(), e, next);
      running, main, lock, workers, conns := next.running, next.main, next.lock, next.workers, next.conns;
    }

    /** Any step of the machine, taken by the threads on their heap queues. */
    method Take(e: Event, next: State)
      requires Valid() && Inv(cfg, Snapshot()) && Step(cfg, Snapshot(), e) == Some(next)
      modifies this, mutexSocketQueue, mutexSocketQueue.Footprint(), filesQueue, filesQueue.Footprint()
      ensures Valid() && Snapshot() == next && Inv(cfg, next) && fresh(Nodes() - old(Nodes()))
    {
      hide Inv, Step, Queue.Valid, RecordsOf, NodesOf, Items, Registered, WorkerStep, CommStep, Valid;
      QueueStepIs(cfg, Snapshot(), e);
      match e {
        case WorkerRuns(w, _, _) =>
          if workers[w].Pop? {
            WorkerPops(w);
          } else if workers[w].Find? {
            WorkerFinds(w);
          } else if workers[w].Test? {
            WorkerTests(w);
          } else {
            StepElsewhere(e, next);
          }
        case CommRuns(c, _) =>
          if conns[c].comm.Register? {
            CommRegisters(c);
          } else if conns[c].comm.Test? {
            CommTests(c);
          } else if conns[c].comm.Insert? {
            CommInserts(c);
          } else if conns[c].comm.Deregister? {
            CommDeregisters(c);
          } else {
            StepElsewhere(e, next);
          }
        case _ => StepElsewhere(e, next);
      }
    }

    /** Every run of the machine is a run of the threads on their heap queues. */
    method Follow(states: seq<State>, events: seq<Event>)
      requires Valid() && System.IsRun(cfg, states, events) && Snapshot() == states[0]
      modifies this, mutexSocketQueue, mutexSocketQueue.Footprint(), filesQueue, filesQueue.Footprint()
      ensures Valid() && Snapshot() == states[|events|]
      ensures |conns| == |old(conns)| && forall c | 0 <= c < |conns| :: conns[c].request == old(conns[c].request)
    {
      hide Inv, Init, Step, Queue.Valid, RecordsOf, NodesOf, Items, Registered, Valid;
      System.RunKeepsInvariant(cfg, states, events, 0);
      var i := 0;
      while i < |events|
        invariant 0 <= i <= |events| && Valid() && Snapshot() == states[i] && Inv(cfg, states[i])
        invariant fresh(Nodes() - old(Nodes()))
      {
        Take(events[i], states[i + 1]);
        i := i + 1;
      }
      Rooms.RequestsStay(cfg, states, events, |events|);
    }
  }

  // ---------------------------------------------------------------- steps that touch no queue

  /** The stretches of the methods above. */
  predicate TouchesQueue(s: State, e: Event) {
    match e
    case WorkerRuns(w, _, _) => w < |s.workers| && (s.workers[w].Pop? || s.workers[w].Find? || s.workers[w].Test?)
    case CommRuns(c, _) => c < |s.conns| && (s.conns[c].comm.Register? || s.conns[c].comm.Test?
        || s.conns[c].comm.Insert? || s.conns[c].comm.Deregister?)
    case _ => false
  }

  /** Those stretches neither signal nor write, so the parameters of the event do not matter. */
  lemma QueueStepIs(cfg: Config, s: State, e: Event)
    requires Step(cfg, s, e).Some?
    ensures e.WorkerRuns? ==>
              e.w < |s.workers| && (TouchesQueue(s, e) ==> Step(cfg, s, e) == WorkerStep(cfg, s, e.w, None, 0))
    ensures e.CommRuns? ==> e.c < |s.conns| && (TouchesQueue(s, e) ==> Step(cfg, s, e) == CommStep(cfg, s, e.c, None))
  {
    hide FindNode, RemoveNode, Records;
  }

  lemma ElsewhereIsElsewhere(cfg: Config, s: State, e: Event, s': State)
    requires Step(cfg, s, e) == Some(s') && !TouchesQueue(s, e)
    ensures s'.queue == s.queue && s'.registry == s.registry
  {
    hide Encode, OpenConn, ClientStep, BigEndian, Records;
  }

  /** The registry says which connections are registered. */
  lemma RegistryTells(cfg: Config, s: State, c: nat)
    requires Inv(cfg, s) && c < |s.conns|
    ensures Registered(s.conns[c].comm) <==> RegistryNode(s.conns[c].request.socket, c) in s.registry
  {
    hide QueueLockOk, NodeLockOk, SocketsDistinct, QueueOk, WorkersOk, ConservationOk, StreamsOk, ConnsOk;
    hide NotEmptyOk, NotFullOk, Registered;
  }

  /** So a step that leaves the registry alone registers nobody and deregisters nobody. */
  lemma RegisteredStays(cfg: Config, s: State, e: Event, s': State)
    requires Inv(cfg, s) && Step(cfg, s, e) == Some(s') && s'.registry == s.registry
    ensures |s'.conns| == |s.conns|
    ensures forall c | 0 <= c < |s.conns| ::
              s'.conns[c].request == s.conns[c].request
                  && (Registered(s'.conns[c].comm) <==> Registered(s.conns[c].comm))
  {
    hide Inv, Step, Registered;
    System.StepKeeps(cfg, s, e, s');
    Rooms.StepStaysWithin(cfg, s, e, s');
    forall c | 0 <= c < |s.conns|
      ensures Registered(s'.conns[c].comm) <==> Registered(s.conns[c].comm)
    {
      RegistryTells(cfg, s, c);
      RegistryTells(cfg, s', c);
    }
  }

  lemma StillThere(nodes: seq<QueueNode>, i: nat)
    requires i < |nodes|
    ensures forall n | n in nodes && n != nodes[i] :: n in nodes[..i] + nodes[i + 1..]
  {
    forall n | n in nodes && n != nodes[i]
      ensures n in nodes[..i] + nodes[i + 1..]
    {
      var j :| 0 <= j < |nodes| && nodes[j] == n;
      assert n == if j < i then (nodes[..i] + nodes[i + 1..])[j] else (nodes[..i] + nodes[i + 1..])[j - 1];
    }
  }

  lemma WorkerStepDone(cfg: Config, s: State, w: nat, s': State)
    requires Inv(cfg, s) && w < |s.workers| && WorkerStep(cfg, s, w, None, 0) == Some(s')
    ensures Inv(cfg, s')
  {
    hide Inv, WorkerStep;
    System.StepKeeps(cfg, s, WorkerRuns(w, None, 0), s');
  }

  lemma CommStepDone(cfg: Config, s: State, c: nat, s': State)
    requires Inv(cfg, s) && c < |s.conns| && CommStep(cfg, s, c, None) == Some(s')
    ensures Inv(cfg, s')
  {
    hide Inv, CommStep;
    System.StepKeeps(cfg, s, CommRuns(c, None), s');
  }

  lemma PopStepIs(cfg: Config, s: State, w: nat)
    requires w < |s.workers| && s.workers[w].Pop?
    ensures WorkerStep(cfg, s, w, None, 0)
         == Some(if s.queue == [] then s.(workers := s.workers[w := Crashed])
                 else s.(queue := s.queue[1..], workers := s.workers[w := Find(s.queue[0])]))
  {
  }

  lemma FindStepIs(cfg: Config, s: State, w: nat)
    requires w < |s.workers| && s.workers[w].Find?
    ensures var rec := s.workers[w].rec;
            WorkerStep(cfg, s, w, None, 0)
            == Some(s.(workers := s.workers[w := match FindNode(s.registry, rec.socket)
                                                 case Some(c) => LockNode(rec, c)
                                                 case None => Crashed]))
  {
    hide FindNode;
  }

  lemma RegisterStepIs(cfg: Config, s: State, c: nat)
    requires c < |s.conns| && s.conns[c].comm.Register?
    ensures CommStep(cfg, s, c, None)
         == Some(s.(registry := s.registry + [RegistryNode(s.conns[c].request.socket, c)],
                    conns := s.conns[c := s.conns[c].(comm := ReadDirectoryAck)]))
  {
  }

  lemma TestStepIs(cfg: Config, s: State, c: nat)
    requires c < |s.conns| && s.conns[c].comm.Test?
    ensures CommStep(cfg, s, c, None)
         == Some(if |s.queue| >= cfg.capacity
                 then s.(lock := None, conns := s.conns[c := s.conns[c].(comm := CommPc.Asleep)])
                 else s.(conns := s.conns[c := s.conns[c].(comm := Insert)]))
  {
  }

  lemma InsertStepIs(cfg: Config, s: State, c: nat)
    requires c < |s.conns| && s.conns[c].comm.Insert? && s.conns[c].inserted < |Records(s.conns[c].request)|
    ensures var k := s.conns[c];
            CommStep(cfg, s, c, None)
            == Some(s.(queue := s.queue + [Record(k.request.socket, Records(k.request)[k.inserted])],
                       conns := s.conns[c := k.(comm := Unlock, inserted := k.inserted + 1)]))
  {
  }

  lemma DeregisterStepIs(cfg: Config, s: State, c: nat)
    requires c < |s.conns| && s.conns[c].comm.Deregister?
    ensures CommStep(cfg, s, c, None)
         == Some(s.(registry := RemoveNode(s.registry, RegistryNode(s.conns[c].request.socket, c)),
                    conns := s.conns[c := s.conns[c].(comm := Close)]))
  {
  }

  lemma NextRecordExists(cfg: Config, s: State, c: nat)
    requires Inv(cfg, s) && c < |s.conns| && s.conns[c].comm.Insert?
    ensures s.conns[c].inserted < |Records(s.conns[c].request)|
  {
    hide QueueLockOk, NodeLockOk, SocketsDistinct, RegistryOk, QueueOk, WorkersOk, ConservationOk, StreamsOk;
    hide NotEmptyOk, NotFullOk, ClientOk, UpOk;
    assert ConnOk(cfg, s.conns[c]);
  }

  lemma RegistryHasNoDuplicates(cfg: Config, s: State)
    requires Inv(cfg, s)
    ensures forall i, j | 0 <= i < j < |s.registry| :: s.registry[i] != s.registry[j]
  {
    hide QueueLockOk, NodeLockOk, SocketsDistinct, QueueOk, WorkersOk, ConservationOk, StreamsOk, ConnsOk;
    hide NotEmptyOk, NotFullOk;
  }

  // ---------------------------------------------------------------- what a communication thread inserts

  /** The items that the walk and the termination message put into the queue are the records the machine
      inserts for the request, in the same order. */
  lemma ExtractedAreRecords(cfg: Config, r: Request, root: FileTree.Node)
    requires EndToEnd.Serves(cfg, r, root)
    ensures RecordsOf(Extractor.Queued(r.socket, FileTree.Walk(root, DEFAULT_DIR + r.directory))
                      + [Item(r.socket, FileName(TERMINATION_MSG))])
         == seq(|Records(r)|, i requires 0 <= i < |Records(r)| => Record(r.socket, Records(r)[i]))
  {
    hide FileTree.Walk, FileTree.Valid;
  }
}
