/** The global invariant of the protocol, one predicate per concern. */
module Invariants {
  import opened Wire
  import opened PathMapping
  import opened Protocol

  // ---------------------------------------------------------------- who holds which lock

  predicate WorkerHoldsQueue(pc: WorkerPc) {
    pc.Test? || pc.GoWait? || pc.Check? || pc.Quit? || pc.Pop? || pc.Find? || pc.LockNode? || pc.UnlockQueue?
        || pc.Crashed?
  }

  predicate CommHoldsQueue(pc: CommPc) {
    pc.Test? || pc.Insert? || pc.Unlock?
  }

  /** The registry node whose mutex a worker holds. */
  function NodeHeld(pc: WorkerPc): Option<nat> {
    match pc
    case UnlockQueue(_, node) => Some(node)
    case SignalNotFull(_, node) => Some(node)
    case Send(_, node, _) => Some(node)
    case UnlockNode(node) => Some(node)
    case _ => None
  }

  /** The mutex of the files queue is held by the thread its program counter says, and by no other. */
  ghost predicate QueueLockOk(s: State) {
    && (forall w | 0 <= w < |s.workers| :: s.lock == Some(WorkerThread(w)) <==> WorkerHoldsQueue(s.workers[w]))
    && (forall c | 0 <= c < |s.conns| :: s.lock == Some(CommThread(c)) <==> CommHoldsQueue(s.conns[c].comm))
    && (s.lock.Some? ==> if s.lock.value.WorkerThread? then s.lock.value.w < |s.workers|
        else s.lock.value.c < |s.conns|)
  }

  /** Likewise the mutex of every registry node. */
  ghost predicate NodeLockOk(s: State) {
    && (forall w | 0 <= w < |s.workers| :: NodeHeld(s.workers[w]).Some? ==> NodeHeld(s.workers[w]).value < |s.conns|)
    && (forall c | 0 <= c < |s.conns| :: s.conns[c].holder.Some? ==> s.conns[c].holder.value < |s.workers|)
    && (forall w, c | 0 <= w < |s.workers| && 0 <= c < |s.conns| ::
          NodeHeld(s.workers[w]) == Some(c) <==> s.conns[c].holder == Some(w))
  }

  // ---------------------------------------------------------------- the registry

  ghost predicate SocketsDistinct(s: State) {
    forall c, d | 0 <= c < |s.conns| && 0 <= d < |s.conns| && Live(s.conns[c].comm) && Live(s.conns[d].comm) ::
      s.conns[c].request.socket == s.conns[d].request.socket ==> c == d
  }

  /** The registry lists the registered connections, each once. */
  ghost predicate RegistryOk(s: State) {
    && (forall r | r in s.registry :: r.conn < |s.conns| && Registered(s.conns[r.conn].comm)
                                      && r.socket == s.conns[r.conn].request.socket)
    && (forall c | 0 <= c < |s.conns| && Registered(s.conns[c].comm) ::
          RegistryNode(s.conns[c].request.socket, c) in s.registry)
    && (forall i, j | 0 <= i < j < |s.registry| :: s.registry[i] != s.registry[j])
  }

  /** Some registered connection has this descriptor. */
  ghost predicate Names(s: State, socket: int) {
    exists c :: 0 <= c < |s.conns| && Registered(s.conns[c].comm) && s.conns[c].request.socket == socket
  }

  /** A queued or popped record always belongs to a registered connection. */
  ghost predicate QueueOk(cfg: Config, s: State) {
    && |s.queue| <= cfg.capacity
    && (forall i | 0 <= i < |s.queue| :: Names(s, s.queue[i].socket))
    && (forall c | 0 <= c < |s.conns| :: s.conns[c].comm.Insert? ==> |s.queue| < cfg.capacity)
  }

  /** A worker that has found a record's node: the connection is registered and the socket its own. */
  ghost predicate AtNode(s: State, rec: Record, node: nat) {
    node < |s.conns| && Registered(s.conns[node].comm) && s.conns[node].request.socket == rec.socket
  }

  ghost predicate WorkerOk(s: State, pc: WorkerPc) {
    match pc
    case GoWait => s.queue == []
    case Quit => !s.running
    case Exited => !s.running
    case Check => s.running ==> s.queue != []
    case Pop => s.queue != []
    case Find(rec) => Names(s, rec.socket)
    case LockNode(rec, node) => AtNode(s, rec, node)
    case UnlockQueue(rec, node) => AtNode(s, rec, node)
    case SignalNotFull(rec, node) => AtNode(s, rec, node)
    case Send(rec, node, _) => AtNode(s, rec, node)
    case Crashed => false
    case _ => true
  }

  ghost predicate WorkersOk(s: State) {
    forall w | 0 <= w < |s.workers| :: WorkerOk(s, s.workers[w])
  }

  // ---------------------------------------------------------------- conservation

  /** The queued paths of one socket, in queue order. */
  function Filter(queue: seq<Record>, socket: int): seq<string> {
    if queue == [] then []
    else
      var rest := Filter(queue[..|queue| - 1], socket);
      if queue[|queue| - 1].socket == socket then rest + [queue[|queue| - 1].path] else rest
  }

  /** The record a worker at this program counter is transmitting. */
  function Transmitting(pc: WorkerPc): seq<string> {
    match pc
    case UnlockQueue(rec, _) => [rec.path]
    case SignalNotFull(rec, _) => [rec.path]
    case Send(rec, _, _) => [rec.path]
    case _ => []
  }

  /** The record of connection `c` in transmission, by the holder of its node's mutex. */
  function InFlight(s: State, c: nat): seq<string>
    requires c < |s.conns|
  {
    match s.conns[c].holder
    case Some(w) => if w < |s.workers| then Transmitting(s.workers[w]) else []
    case None => []
  }

  /** The popped record of connection `c` whose worker does not have the node's mutex yet. Such a
      worker still holds the mutex of the queue, so there is at most one in the whole system. */
  function Held(s: State, c: nat): seq<string>
    requires c < |s.conns|
  {
    match s.lock
    case Some(WorkerThread(w)) =>
      if w < |s.workers| then
        match s.workers[w]
        case Find(rec) => if rec.socket == s.conns[c].request.socket then [rec.path] else []
        case LockNode(rec, node) => if node == c then [rec.path] else []
        case _ => []
      else []
    case _ => []
  }

  /** How many bytes of the record in flight have been written. */
  function WrittenInFlight(s: State, c: nat): nat
    requires c < |s.conns|
  {
    match s.conns[c].holder
    case Some(w) => if w < |s.workers| && s.workers[w].Send? then s.workers[w].written else 0
    case None => 0
  }

  /** Sent, in flight, held, queued, not yet inserted: together the listing, in this order. */
  ghost predicate Conserved(s: State, c: nat)
    requires c < |s.conns|
  {
    var k := s.conns[c];
    && k.sent <= k.inserted <= |Records(k.request)|
    && (Registered(k.comm) ==>
          Records(k.request)[k.sent..k.inserted] == InFlight(s, c) + Held(s, c) + Filter(s.queue, k.request.socket))
  }

  ghost predicate ConservationOk(s: State) {
    forall c | 0 <= c < |s.conns| :: Conserved(s, c)
  }

  // ---------------------------------------------------------------- byte streams

  predicate BeforeStream(pc: CommPc) {
    pc.Unborn? || pc.Register? || pc.ReadDirectoryAck? || pc.SendBlockSize?
  }

  /** Everything the server will ever write to a connection. */
  function Stream(cfg: Config, r: Request): string {
    BigEndian(cfg.blockSize, 4) + EncodeAll(cfg.disk, Records(r))
  }

  /** The length of the stream up to record `i`. */
  function Base(cfg: Config, r: Request, i: nat): nat
    requires i <= |Records(r)|
  {
    4 + |EncodeAll(cfg.disk, Records(r)[..i])|
  }

  /** What is on the wire: the block size, the records sent, a prefix of the one in flight. */
  ghost predicate DownOk(cfg: Config, k: Conn, inFlight: nat)
    requires k.sent <= |Records(k.request)|
  {
    if BeforeStream(k.comm) then k.down == "" && k.inserted == 0 && inFlight == 0
    else
      && k.down <= Stream(cfg, k.request)
      && |k.down| == Base(cfg, k.request, k.sent) + inFlight
      && (inFlight > 0 ==> k.sent < |Records(k.request)| && inFlight < |Encode(cfg.disk, Records(k.request)[k.sent])|)
  }

  ghost predicate StreamsOk(cfg: Config, s: State) {
    forall c | 0 <= c < |s.conns| :: s.conns[c].sent <= |Records(s.conns[c].request)|
        && DownOk(cfg, s.conns[c], WrittenInFlight(s, c))
  }

  // ---------------------------------------------------------------- one connection by itself

  /** `n` acknowledgements, then the final message if the client has finished. */
  function UpBytes(n: nat, finished: bool): string {
    if n == 0 then (if finished then TERM_MSG else "") else ACK_MSG + UpBytes(n - 1, finished)
  }

  /** How many acknowledgements the client has sent. */
  function Acks(cl: Client): nat {
    match cl.pc
    case AckDirectory => 0
    case ReadBlockSize => 1
    case AckBlockSize => 1
    case _ => 2 + cl.decoded
  }

  predicate Inserting(pc: CommPc) {
    pc.Lock? || pc.Test? || pc.Asleep? || pc.Reacquire? || pc.Insert?
  }

  predicate AllInserted(pc: CommPc) {
    pc.ReadAck? || pc.Deregister? || pc.Close? || pc.Gone?
  }

  /** Acknowledgement accounting: what has been read is a whole number of three-byte messages. */
  ghost predicate UpOk(k: Conn) {
    && k.up == UpBytes(Acks(k.client), k.client.pc.Finished?)
    && k.upRead <= |k.up|
    && match k.comm
       case Unborn => k.upRead == 0
       case Register => k.upRead == 0
       case ReadDirectoryAck => k.upRead == 0
       case SendBlockSize => k.upRead == 3
       case ReadBlockAck => k.upRead == 3
       case ReadAck => k.upRead % 3 == 0 && 6 <= k.upRead <= 3 * Acks(k.client)
       case Deregister => k.client.pc.Finished? && k.upRead == |k.up|
       case Close => k.client.pc.Finished? && k.upRead == |k.up|
       case Gone => k.client.pc.Finished? && k.upRead == |k.up|
       case _ => k.upRead == 6
  }

  ghost predicate CommOk(k: Conn) {
    && (Inserting(k.comm) ==> k.inserted < |Records(k.request)|)
    && (AllInserted(k.comm) ==> k.inserted == |Records(k.request)|)
    && (k.comm.ReadBlockAck? ==> k.inserted == 0)
  }

  /** The client's files after its first `i` records. */
  function FilesAfter(cfg: Config, r: Request, i: nat): Files
    requires i <= |Records(r)|
  {
    Rebuild(r.outDir, r.directory, cfg.disk, Records(r)[..i])
  }

  /** The payload of record `i`. */
  function PayloadOf(cfg: Config, r: Request, i: nat): string
    requires i < |Records(r)|
  {
    Payload(Body(cfg.disk, Records(r)[i]))
  }

  /** The client's block size after its first `i` records: it starts as the server's and only shrinks. */
  function BlockAfter(cfg: Config, r: Request, i: nat): (b: nat)
    requires i <= |Records(r)|
    ensures b <= cfg.blockSize && (cfg.blockSize >= 1 ==> b >= 1)
  {
    if i == 0 then cfg.blockSize else BlockLeft(BlockAfter(cfg, r, i - 1), |PayloadOf(cfg, r, i - 1)|)
  }

  /** In the copy loop: `got` bytes of the payload are in the file, and the 32-bit counter is the
      true remaining count reduced to an `int`. */
  ghost predicate Copying(cfg: Config, k: Conn, path: string, out: string, counter: int)
    requires k.client.decoded < |Records(k.request)|
  {
    var cl, r := k.client, k.request;
    var d, data := cl.decoded, PayloadOf(cfg, r, cl.decoded);
    && path == Records(r)[d] && !EndsTransfer(path)
    && Suffix(path, r.directory).Some? && out == r.outDir + Suffix(path, r.directory).value
    && out in cl.fs.contents
    && var got := |cl.fs.contents[out]|;
       && got < |data|
       && cl.fs == Place(FilesAfter(cfg, r, d), r.outDir, Suffix(path, r.directory).value, data[..got])
       && counter == ToInt32(|data| - got)
       && cl.block >= 1 && got % cl.block == 0
       && cl.consumed == Base(cfg, r, d) + 6 + |path| + got
  }

  /** At a record boundary with `i` records received. */
  ghost predicate Received(cfg: Config, k: Conn, i: nat) {
    && i <= |Records(k.request)|
    && k.client.consumed == Base(cfg, k.request, i)
    && k.client.fs == FilesAfter(cfg, k.request, i)
  }

  ghost predicate ClientOk(cfg: Config, k: Conn) {
    var cl, r, d := k.client, k.request, k.client.decoded;
    var R := Records(r);
    && cl.consumed <= |k.down|
    && d <= |R|
    && match cl.pc
       case AckDirectory => cl.consumed == 0 && d == 0 && cl.fs == Fresh(r.outDir)
       case ReadBlockSize => cl.consumed == 0 && d == 0 && cl.fs == Fresh(r.outDir)
       case AckBlockSize => d == 0 && cl.block == cfg.blockSize && Received(cfg, k, 0)
       case ReadLength => d < |R| && cl.block == BlockAfter(cfg, r, d) && Received(cfg, k, d)
       case ReadSize(length) =>
         && d < |R| && cl.block == BlockAfter(cfg, r, d) && cl.fs == FilesAfter(cfg, r, d)
         && cl.consumed == Base(cfg, r, d) + 2 && length == |R[d]|
       case ReadPath(length, size) =>
         && d < |R| && cl.block == BlockAfter(cfg, r, d) && cl.fs == FilesAfter(cfg, r, d)
         && cl.consumed == Base(cfg, r, d) + 6 && length == |R[d]| && size == |PayloadOf(cfg, r, d)|
       case ReadChunk(path, out, counter) =>
         d < |R| && cl.block == BlockAfter(cfg, r, d) && Copying(cfg, k, path, out, counter)
       case AckRecord(path) =>
         d < |R| && path == R[d] && cl.block == BlockAfter(cfg, r, d + 1) && Received(cfg, k, d + 1)
       case SendEnd => d == |R| && Received(cfg, k, d)
       case Finished => d == |R| && Received(cfg, k, d)
       case Faulted => false
  }

  ghost predicate ConnOk(cfg: Config, k: Conn) {
    && GoodRequest(k.request)
    && UpOk(k) && CommOk(k) && ClientOk(cfg, k)
  }

  ghost predicate ConnsOk(cfg: Config, s: State) {
    forall c | 0 <= c < |s.conns| :: ConnOk(cfg, s.conns[c])
  }

  // ---------------------------------------------------------------- no lost wake-up

  function Sum<T>(xs: seq<T>, f: T -> nat): nat {
    if xs == [] then 0 else Sum(xs[..|xs| - 1], f) + f(xs[|xs| - 1])
  }

  /** Awake and not yet popped. */
  function Unpopped(pc: WorkerPc): nat {
    if pc.Top? || pc.Lock? || pc.Test? || pc.GoWait? || pc.Reacquire? || pc.Check? || pc.Pop? then 1 else 0
  }

  /** Has popped and not yet signalled. */
  function OwesNotFull(pc: WorkerPc): nat {
    if pc.Find? || pc.LockNode? || pc.UnlockQueue? || pc.SignalNotFull? then 1 else 0
  }

  /** Awake and about to insert. */
  function AwakeInserter(k: Conn): nat {
    if Inserting(k.comm) && !k.comm.Asleep? then 1 else 0
  }

  /** Has inserted and not yet signalled. */
  function OwesNotEmpty(k: Conn): nat {
    if k.comm.Unlock? || k.comm.SignalNotEmpty? then 1 else 0
  }

  ghost predicate WorkerSleeps(s: State) {
    exists w :: 0 <= w < |s.workers| && s.workers[w].Asleep?
  }

  ghost predicate InserterSleeps(s: State) {
    exists c :: 0 <= c < |s.conns| && s.conns[c].comm.Asleep?
  }

  ghost predicate NotEmptyOk(s: State) {
    s.running && WorkerSleeps(s) ==> |s.queue| <= Sum(s.workers, Unpopped) + Sum(s.conns, OwesNotEmpty)
  }

  ghost predicate NotFullOk(cfg: Config, s: State) {
    InserterSleeps(s) ==> cfg.capacity - |s.queue| <= Sum(s.conns, AwakeInserter) + Sum(s.workers, OwesNotFull)
  }

  // ---------------------------------------------------------------- all together

  ghost predicate Inv(cfg: Config, s: State) {
    && GoodConfig(cfg) && |s.workers| >= 1
    && QueueLockOk(s) && NodeLockOk(s)
    && SocketsDistinct(s) && RegistryOk(s) && QueueOk(cfg, s) && WorkersOk(s)
    && ConservationOk(s) && StreamsOk(cfg, s) && ConnsOk(cfg, s)
    && NotEmptyOk(s) && NotFullOk(cfg, s)
    && (s.main.Joining? || s.main.Stopping? ==> !s.running)
  }

  lemma NewConnOk(cfg: Config, r: Request)
    requires GoodRequest(r)
    ensures ConnOk(cfg, NewConn(r)) && DownOk(cfg, NewConn(r), 0)
  {
    hide Base, Stream, FilesAfter, PayloadOf, Place, Suffix, GoodRequest;
  }

  lemma InitHolds(cfg: Config, s: State)
    requires Init(cfg, s)
    ensures Inv(cfg, s)
  {
    hide ConnOk, DownOk, Filter, GoodRequest;
    forall c | 0 <= c < |s.conns|
      ensures ConnOk(cfg, s.conns[c]) && Conserved(s, c) && DownOk(cfg, s.conns[c], 0)
    {
      NewConnOk(cfg, s.conns[c].request);
    }
  }
}
