/** The thread-pool protocol of sources/Server.c together with its clients, as a state machine.

    Every stretch of code between two operations another thread can observe (lock, unlock, wait,
    signal, broadcast, read, write) is one step. The functions `*Step` give the successor of one
    thread at one program counter, or `None` where the thread is blocked. */
module Protocol {
  import opened Wire
  import opened PathMapping

  // ---------------------------------------------------------------- threads

  /** An entry of `Files_Queue`. */
  datatype Record = Record(socket: int, path: string)

  /** An entry of `Mutex_Socket_Queue`: the node made by the communication thread of one connection. */
  datatype RegistryNode = RegistryNode(socket: int, conn: nat)

  /** Program counters of `ThreadPool_WorkerThread_Runs`. */
  datatype WorkerPc =
    | Top                                               // while (RUNNING)
    | Lock                                              // wants mutex_files_queue
    | Test                                              // while (empty && RUNNING)
    | GoWait                                            // about to enter pthread_cond_wait
    | Asleep                                            // on cond_queue_not_empty
    | Reacquire                                         // woken, wants the mutex back
    | Check                                             // if (!RUNNING)
    | Quit                                              // unlock before leaving
    | Pop
    | Find(rec: Record)                                 // Queue_Find in the registry
    | LockNode(rec: Record, node: nat)                  // QueueNode_LockMutex
    | UnlockQueue(rec: Record, node: nat)
    | SignalNotFull(rec: Record, node: nat)
    | Send(rec: Record, node: nat, written: nat)        // Server_Send_Files_to_Client
    | UnlockNode(node: nat)
    | Exited
    | Crashed                                           // NULL registry node dereferenced

  /** Program counters of `Server`, from the confirmed directory on. */
  datatype CommPc =
    | Unborn                                            // not accepted yet
    | Register
    | ReadDirectoryAck
    | SendBlockSize
    | ReadBlockAck
    | Lock                                              // Server_Insert_Files_To_Queue
    | Test                                              // while (size >= max_queue_size)
    | Asleep                                            // on cond_queue_not_full
    | Reacquire
    | Insert
    | Unlock
    | SignalNotEmpty
    | ReadAck
    | Deregister
    | Close
    | Gone

  /** Program counters of `Client` and `Client_CopyFiles`. */
  datatype ClientPc =
    | AckDirectory
    | ReadBlockSize
    | AckBlockSize
    | ReadLength
    | ReadSize(length: nat)
    | ReadPath(length: nat, size: nat)
    | ReadChunk(path: string, out: string, counter: int)
    | AckRecord(path: string)
    | SendEnd
    | Finished
    | Faulted                                           // NULL from strstr or strrchr, or no way to make the file

  datatype Thread = WorkerThread(w: nat) | CommThread(c: nat)

  /** Program counters of `main`. */
  datatype MainPc =
    | AtTest                                            // while (RUNNING)
    | CallsAccept                                       // tested, not yet in accept
    | InAccept                                          // blocked in accept
    | Stopping                                          // about to broadcast
    | Joining

  // ---------------------------------------------------------------- state

  /** One client's request: the files of its tree in the order the server walks them. */
  datatype Request = Request(socket: int, directory: string, outDir: string, listing: seq<string>)

  function Records(r: Request): (ps: seq<string>)
    ensures |ps| == |r.listing| + 1
  {
    r.listing + [TERMINATION_MSG]
  }

  /** `decoded` counts the records acknowledged; it is not read by any step. */
  datatype Client = Client(pc: ClientPc, consumed: nat, block: nat, fs: Files, decoded: nat)

  /** One connection: its communication thread, the mutex of its registry node, both byte streams
      and its client. `down` and `up` are all bytes ever written, `client.consumed` and `upRead` how
      many of them have been read. `sent` counts the records written whole; no step reads it. */
  datatype Conn = Conn(request: Request, comm: CommPc, inserted: nat, sent: nat, holder: Option<nat>,
                       down: string, up: string, upRead: nat, client: Client)

  /** `upRoom` and `downRoom`: how many unread bytes a connection holds in each direction before a
      `write` blocks. */
  datatype Config = Config(capacity: nat, blockSize: nat, disk: map<string, string>, upRoom: nat, downRoom: nat)

  datatype State = State(running: bool, main: MainPc,
                         queue: seq<Record>, lock: Option<Thread>, registry: seq<RegistryNode>,
                         workers: seq<WorkerPc>, conns: seq<Conn>)
  {
    function SetWorker(w: nat, pc: WorkerPc): State
      requires w < |workers|
    {
      this.(workers := workers[w := pc])
    }

    function SetConn(c: nat, k: Conn): State
      requires c < |conns|
    {
      this.(conns := conns[c := k])
    }

    function SetComm(c: nat, pc: CommPc): State
      requires c < |conns|
    {
      SetConn(c, conns[c].(comm := pc))
    }
  }

  /** A connection whose descriptor is open in the server. */
  predicate Live(pc: CommPc) {
    !pc.Unborn? && !pc.Gone?
  }

  /** A connection whose node is in the registry. */
  predicate Registered(pc: CommPc) {
    Live(pc) && !pc.Register? && !pc.Close?
  }

  /** `Queue_Find` on the registry's contents. */
  function FindNode(registry: seq<RegistryNode>, socket: int): Option<nat> {
    if registry == [] then None
    else if registry[0].socket == socket then Some(registry[0].conn)
    else FindNode(registry[1..], socket)
  }

  /** `Queue_Delete` on the registry's contents. */
  function RemoveNode(registry: seq<RegistryNode>, node: RegistryNode): seq<RegistryNode> {
    if registry == [] then []
    else if registry[0] == node then registry[1..]
    else [registry[0]] + RemoveNode(registry[1..], node)
  }

  /** The connection the kernel writes to for a descriptor number, searched from `from` on. */
  function OpenConn(conns: seq<Conn>, socket: int, from: nat): Option<nat>
    requires from <= |conns|
    decreases |conns| - from
  {
    if from == |conns| then None
    else if Live(conns[from].comm) && conns[from].request.socket == socket then Some(from)
    else OpenConn(conns, socket, from + 1)
  }

  // ---------------------------------------------------------------- the client's counter

  /** Conversion to C's 32-bit `int`. */
  function ToInt32(x: int): int {
    if x % TWO_32 < TWO_31 then x % TWO_32 else x % TWO_32 - TWO_32
  }

  /** Conversion of an `int` to `size_t`. */
  function ToSize(x: int): nat {
    x % TWO_64
  }

  /** `if (bytes_to_recv < block_size) block_size = bytes_to_recv;` */
  function NextBlock(counter: int, block: nat): nat {
    if ToSize(counter) < block then ToSize(counter) else block
  }

  /** What a block size shrinks to over a file: to the size of the last, incomplete block. */
  function BlockLeft(block: nat, size: nat): (r: nat)
    ensures r <= block && (block >= 1 ==> r >= 1)
  {
    if block == 0 || size % block == 0 then block else size % block
  }

  /** `bytes_to_recv -= block_size;` */
  function CountDown(counter: int, block: nat): int {
    ToInt32((ToSize(counter) - block) % TWO_64)
  }

  // ---------------------------------------------------------------- full sockets

  /** The server can write `n` more bytes without waiting for the client to read. */
  predicate HasDownRoom(cfg: Config, k: Conn, n: nat) {
    |k.down| + n <= k.client.consumed + cfg.downRoom
  }

  /** The client has not written more than there is room for. */
  predicate UpFits(cfg: Config, k: Conn) {
    |k.up| <= k.upRead + cfg.upRoom
  }

  // ---------------------------------------------------------------- worker steps

  /** `wake`: which sleeper a signal wakes. `n`: how many bytes one `write` moves. */
  function WorkerStep(cfg: Config, s: State, w: nat, wake: Option<nat>, n: nat): Option<State>
    requires w < |s.workers|
  {
    match s.workers[w]
    case Top => Some(s.SetWorker(w, if s.running then WorkerPc.Lock else Exited))
    case Lock => WorkerAcquires(s, w)
    case Test => Some(s.SetWorker(w, if s.queue == [] && s.running then GoWait else Check))
    case GoWait => Some(s.(lock := None).SetWorker(w, WorkerPc.Asleep))
    case Asleep => None
    case Reacquire => WorkerAcquires(s, w)
    case Check => Some(s.SetWorker(w, if s.running then Pop else Quit))
    case Quit => Some(s.(lock := None).SetWorker(w, Exited))
    case Pop => if s.queue == [] then Some(s.SetWorker(w, Crashed))
                else Some(s.(queue := s.queue[1..]).SetWorker(w, Find(s.queue[0])))
    case Find(rec) => Some(s.SetWorker(w, match FindNode(s.registry, rec.socket)
                                          case Some(node) => LockNode(rec, node)
                                          case None => Crashed))
    case LockNode(rec, node) => WorkerTakesNode(s, w, rec, node)
    case UnlockQueue(rec, node) => Some(s.(lock := None).SetWorker(w, SignalNotFull(rec, node)))
    case SignalNotFull(rec, node) => WorkerSignals(s, w, rec, node, wake)
    case Send(rec, node, written) => WorkerWrites(cfg, s, w, rec, node, written, n)
    case UnlockNode(node) => WorkerDropsNode(s, w, node)
    case Exited => None
    case Crashed => None
  }

  function WorkerAcquires(s: State, w: nat): Option<State>
    requires w < |s.workers|
  {
    if s.lock.None? then Some(s.(lock := Some(WorkerThread(w))).SetWorker(w, WorkerPc.Test)) else None
  }

  function WorkerTakesNode(s: State, w: nat, rec: Record, node: nat): Option<State>
    requires w < |s.workers|
  {
    if node < |s.conns| && s.conns[node].holder.None? then
      Some(s.SetConn(node, s.conns[node].(holder := Some(w))).SetWorker(w, UnlockQueue(rec, node)))
    else None
  }

  /** `pthread_cond_signal(&cond_queue_not_full)` wakes one sleeping communication thread, if any. */
  function WorkerSignals(s: State, w: nat, rec: Record, node: nat, wake: Option<nat>): Option<State>
    requires w < |s.workers|
  {
    var s' := s.SetWorker(w, Send(rec, node, 0));
    match wake
    case None => if exists c | 0 <= c < |s.conns| :: s.conns[c].comm.Asleep? then None else Some(s')
    case Some(c) => if c < |s.conns| && s.conns[c].comm.Asleep? then Some(s'.SetComm(c, CommPc.Reacquire)) else None
  }

  /** One `write` on the record's descriptor; the last one of a record also ends the send loop. */
  function WorkerWrites(cfg: Config, s: State, w: nat, rec: Record, node: nat, written: nat, n: nat): Option<State>
    requires w < |s.workers|
  {
    var bytes := Encode(cfg.disk, rec.path);
    match OpenConn(s.conns, rec.socket, 0)
    case None => None
    case Some(c) =>
      if c >= |s.conns| || n == 0 || written + n > |bytes| || !HasDownRoom(cfg, s.conns[c], n) then None
      else
        var k := s.conns[c].(down := s.conns[c].down + bytes[written..written + n]);
        if written + n < |bytes| then Some(s.SetConn(c, k).SetWorker(w, Send(rec, node, written + n)))
        else Some(s.SetConn(c, k.(sent := k.sent + 1)).SetWorker(w, UnlockNode(node)))
  }

  function WorkerDropsNode(s: State, w: nat, node: nat): Option<State>
    requires w < |s.workers|
  {
    if node < |s.conns| then Some(s.SetConn(node, s.conns[node].(holder := None)).SetWorker(w, Top)) else None
  }

  // ---------------------------------------------------------------- communication thread steps

  function CommStep(cfg: Config, s: State, c: nat, wake: Option<nat>): Option<State>
    requires c < |s.conns|
  {
    var k := s.conns[c];
    match k.comm
    case Unborn => None
    case Register => Some(s.(registry := s.registry + [RegistryNode(k.request.socket, c)]).SetComm(c, ReadDirectoryAck))
    case ReadDirectoryAck => CommReads(s, c, SendBlockSize)
    case SendBlockSize =>
      if !HasDownRoom(cfg, k, 4) then None
      else Some(s.SetConn(c, k.(comm := ReadBlockAck, down := k.down + BigEndian(cfg.blockSize, 4))))
    case ReadBlockAck => CommReads(s, c, CommPc.Lock)
    case Lock => CommAcquires(s, c)
    case Test => if |s.queue| >= cfg.capacity then Some(s.(lock := None).SetComm(c, CommPc.Asleep))
                 else Some(s.SetComm(c, Insert))
    case Asleep => None
    case Reacquire => CommAcquires(s, c)
    case Insert => CommInserts(s, c)
    case Unlock => Some(s.(lock := None).SetComm(c, SignalNotEmpty))
    case SignalNotEmpty => CommSignals(s, c, wake)
    case ReadAck => if k.upRead + 3 <= |k.up| && k.up[k.upRead..k.upRead + 3] == TERM_MSG
                    then CommReads(s, c, Deregister) else CommReads(s, c, ReadAck)
    case Deregister => Some(s.(registry := RemoveNode(s.registry, RegistryNode(k.request.socket, c))).SetComm(c, Close))
    case Close => Some(s.SetComm(c, Gone))
    case Gone => None
  }

  /** `Receive_Data` of three bytes. */
  function CommReads(s: State, c: nat, next: CommPc): Option<State>
    requires c < |s.conns|
  {
    var k := s.conns[c];
    if k.upRead + 3 <= |k.up| then Some(s.SetConn(c, k.(comm := next, upRead := k.upRead + 3))) else None
  }

  function CommAcquires(s: State, c: nat): Option<State>
    requires c < |s.conns|
  {
    if s.lock.None? then Some(s.(lock := Some(CommThread(c))).SetComm(c, CommPc.Test)) else None
  }

  function CommInserts(s: State, c: nat): Option<State>
    requires c < |s.conns|
  {
    var k := s.conns[c];
    if k.inserted < |Records(k.request)| then
      Some(s.(queue := s.queue + [Record(k.request.socket, Records(k.request)[k.inserted])])
           .SetConn(c, k.(comm := Unlock, inserted := k.inserted + 1)))
    else None
  }

  /** `pthread_cond_signal(&cond_queue_not_empty)`, then the next insertion or the final read loop. */
  function CommSignals(s: State, c: nat, wake: Option<nat>): Option<State>
    requires c < |s.conns|
  {
    var k := s.conns[c];
    var s' := s.SetComm(c, if k.inserted < |Records(k.request)| then CommPc.Lock else ReadAck);
    match wake
    case None => if exists w | 0 <= w < |s.workers| :: s.workers[w].Asleep? then None else Some(s')
    case Some(w) => if w < |s.workers| && s.workers[w].Asleep? then Some(s'.SetWorker(w, WorkerPc.Reacquire)) else None
  }

  // ---------------------------------------------------------------- client steps

  /** The connection after one step of its client. The directory has been confirmed once the
      communication thread is past `Register`. */
  function ClientStep(k: Conn): Option<Conn> {
    var cl := k.client;
    match cl.pc
    case AckDirectory => if k.comm.Unborn? || k.comm.Register? then None
                         else Some(k.(up := k.up + ACK_MSG, client := cl.(pc := ReadBlockSize)))
    case ReadBlockSize =>
      if Available(k) < 4 then None
      else Some(Advance(k, 4, AckBlockSize, FromBigEndian(Next(k, 4)), cl.fs))
    case AckBlockSize => Some(k.(up := k.up + ACK_MSG, client := cl.(pc := ReadLength)))
    case ReadLength =>
      if Available(k) < 2 then None
      else Some(Advance(k, 2, ReadSize(FromBigEndian(Next(k, 2))), cl.block, cl.fs))
    case ReadSize(length) =>
      if Available(k) < 4 then None
      else Some(Advance(k, 4, ReadPath(length, FromBigEndian(Next(k, 4))), cl.block, cl.fs))
    case ReadPath(length, size) => ClientOpens(k, length, size)
    case ReadChunk(path, out, counter) => ClientCopies(k, path, out, counter)
    case AckRecord(path) =>
      var next := if EndsTransfer(path) then SendEnd else ReadLength;
      Some(k.(up := k.up + ACK_MSG, client := cl.(pc := next, decoded := cl.decoded + 1)))
    case SendEnd => Some(k.(up := k.up + TERM_MSG, client := cl.(pc := Finished)))
    case Finished => None
    case Faulted => None
  }

  function Available(k: Conn): int {
    |k.down| - k.client.consumed
  }

  /** The next `n` bytes of the stream. */
  function Next(k: Conn, n: nat): (r: string)
    requires n <= Available(k)
    ensures |r| == n
  {
    k.down[k.client.consumed..k.client.consumed + n]
  }

  function Advance(k: Conn, n: nat, pc: ClientPc, block: nat, fs: Files): Conn {
    k.(client := k.client.(pc := pc, consumed := k.client.consumed + n, block := block, fs := fs))
  }

  /** The path arrives; unless it is the termination message the hierarchy and the file are made. */
  function ClientOpens(k: Conn, length: nat, size: nat): Option<Conn> {
    if Available(k) < length then None
    else
      var path, fs := Next(k, length), k.client.fs;
      if EndsTransfer(path) then Some(Advance(k, length, AckRecord(path), k.client.block, fs))
      else match Suffix(path, k.request.directory)
        case None => Some(Advance(k, length, Faulted, k.client.block, fs))
        case Some(suffix) =>
          if !Fits(fs, k.request.outDir, suffix) then Some(Advance(k, length, Faulted, k.client.block, fs))
          else
            var out := k.request.outDir + suffix;
            var pc := if ToInt32(size) == 0 then AckRecord(path) else ReadChunk(path, out, ToInt32(size));
            Some(Advance(k, length, pc, k.client.block, Place(fs, k.request.outDir, suffix, "")))
  }

  /** One round of the copy loop. */
  function ClientCopies(k: Conn, path: string, out: string, counter: int): Option<Conn> {
    var block, fs := NextBlock(counter, k.client.block), k.client.fs;
    if Available(k) < block || out !in fs.contents then None
    else
      var rest := CountDown(counter, block);
      Some(Advance(k, block, if rest == 0 then AckRecord(path) else ReadChunk(path, out, rest), block,
                   fs.(contents := fs.contents[out := fs.contents[out] + Next(k, block)])))
  }

  // ---------------------------------------------------------------- the whole system

  datatype Event =
    | Accept(c: nat)                                   // main accepts connection c
    | WorkerRuns(w: nat, wake: Option<nat>, n: nat)
    | CommRuns(c: nat, wake: Option<nat>)
    | ClientRuns(c: nat)
    | SpuriousWorker(w: nat)                           // pthread_cond_wait returns unprompted
    | SpuriousComm(c: nat)
    | Interrupt                                        // ^C, which makes a blocked accept return
    | MainGoesOn                                       // main's own steps up to the broadcast
    | MainBroadcasts                                   // ThreadPool_Destroy

  function Step(cfg: Config, s: State, e: Event): Option<State> {
    match e
    case Accept(c) => AcceptStep(s, c)
    case WorkerRuns(w, wake, n) => if w < |s.workers| then WorkerStep(cfg, s, w, wake, n) else None
    case CommRuns(c, wake) => if c < |s.conns| then CommStep(cfg, s, c, wake) else None
    case ClientRuns(c) =>
      if c < |s.conns| then
        match ClientStep(s.conns[c])
        case Some(k) => if k.up == s.conns[c].up || UpFits(cfg, k) then Some(s.SetConn(c, k)) else None
        case None => None
      else None
    case SpuriousWorker(w) =>
      if w < |s.workers| && s.workers[w].Asleep? then Some(s.SetWorker(w, WorkerPc.Reacquire)) else None
    case SpuriousComm(c) =>
      if c < |s.conns| && s.conns[c].comm.Asleep? then Some(s.SetComm(c, CommPc.Reacquire)) else None
    case Interrupt =>
      if s.running || s.main.InAccept?
      then Some(s.(running := false, main := if s.main.InAccept? then Stopping else s.main))
      else None
    case MainGoesOn => MainStep(s)
    case MainBroadcasts => if s.main.Stopping? then Some(s.(main := Joining, workers := WakeAll(s.workers))) else None
  }

  /** The accept loop, up to the blocking call. */
  function MainStep(s: State): Option<State> {
    match s.main
    case AtTest => Some(s.(main := if s.running then CallsAccept else Stopping))
    case CallsAccept => Some(s.(main := InAccept))
    case _ => None
  }

  /** A new connection never gets a descriptor number that is still open. */
  function AcceptStep(s: State, c: nat): Option<State> {
    if c < |s.conns| && s.main.InAccept? && s.conns[c].comm.Unborn? &&
       forall d | 0 <= d < |s.conns| && Live(s.conns[d].comm) :: s.conns[d].request.socket != s.conns[c].request.socket
    then Some(s.SetComm(c, Register).(main := AtTest))
    else None
  }

  function Woken(pc: WorkerPc): WorkerPc {
    if pc.Asleep? then WorkerPc.Reacquire else pc
  }

  function WakeAll(workers: seq<WorkerPc>): seq<WorkerPc> {
    seq(|workers|, i requires 0 <= i < |workers| => Woken(workers[i]))
  }

  predicate IsSpurious(e: Event) {
    e.SpuriousWorker? || e.SpuriousComm?
  }

  function NewConn(r: Request): Conn {
    Conn(r, Unborn, 0, 0, None, "", "", 0, Client(AckDirectory, 0, 0, Fresh(r.outDir), 0))
  }

  /** What the command line and the served tree guarantee. */
  predicate GoodRequest(r: Request) {
    Servable(r.directory, r.listing) && forall p | p in r.listing :: |p| <= MAX_LENGTH
  }

  predicate GoodConfig(cfg: Config) {
    cfg.capacity >= 1 && 1 <= cfg.blockSize < TWO_31
  }

  ghost predicate Init(cfg: Config, s: State) {
    && GoodConfig(cfg)
    && s.running && s.main == AtTest
    && s.queue == [] && s.lock == None && s.registry == []
    && |s.workers| >= 1
    && (forall w | 0 <= w < |s.workers| :: s.workers[w] == Top)
    && (forall c | 0 <= c < |s.conns| :: GoodRequest(s.conns[c].request) && s.conns[c] == NewConn(s.conns[c].request))
  }
}
