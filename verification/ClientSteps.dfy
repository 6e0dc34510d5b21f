/** Every step of a client keeps the invariant: the client decodes exactly the records its server
    side was asked to send, whatever the block sizes, and rebuilds the files from them. */
module ClientSteps {
  import opened Wire
  import opened PathMapping
  import opened Protocol
  import opened Invariants
  import opened Frames
  import WorkerSteps
  import CommSteps

  // ---------------------------------------------------------------- the 32-bit counter

  /** The client's signed counter against `size_t`: for a true remaining count `rest` below 2^32
      and a block size below 2^31 the comparison and the subtraction come out as on `rest` itself,
      even while the counter is negative. */
  lemma CounterIsExact(rest: nat, block: nat)
    requires 1 <= rest < TWO_32 && 1 <= block < TWO_31
    ensures NextBlock(ToInt32(rest), block) == if rest < block then rest else block
    ensures CountDown(ToInt32(rest), NextBlock(ToInt32(rest), block)) == ToInt32(rest - NextBlock(ToInt32(rest), block))
    ensures ToInt32(rest) != 0
  {
    var counter := ToInt32(rest);
    assert counter == if rest < TWO_31 then rest else rest - TWO_32;
    assert ToSize(counter) == if rest < TWO_31 then rest else TWO_64 + rest - TWO_32;
    var next := NextBlock(counter, block);
    var left := rest - next;
    assert (ToSize(counter) - next) % TWO_64 == if rest < TWO_31 then left else TWO_64 + left - TWO_32;
    assert (TWO_64 + left - TWO_32) % TWO_32 == left;
  }

  lemma CounterStops(rest: nat)
    requires rest < TWO_32
    ensures ToInt32(rest) == 0 <==> rest == 0
  {
  }

  /** Whole blocks are copied until an incomplete one is left, which becomes the block size. */
  lemma NextBlockKeeps(block: nat, size: nat, got: nat, n: nat)
    requires block >= 1 && got < size && got % block == 0
    requires n == if size - got < block then size - got else block
    ensures got + n < size ==> n == block && (got + n) % block == 0
    ensures got + n == size ==> n == BlockLeft(block, size)
  {
    var q := got / block;
    assert got == q * block;
    if size - got < block {
      Remainder(size, block, q, size - got);
    } else {
      assert got + n == (q + 1) * block;
      Remainder(got + n, block, q + 1, 0);
    }
  }

  lemma Remainder(n: nat, d: nat, q: nat, r: nat)
    requires d >= 1 && n == q * d + r && r < d
    ensures n % d == r
  {
    QuotientIsUnique(n, d, q, r);
  }

  lemma BlockAfterNext(cfg: Config, r: Request, i: nat)
    requires i < |Records(r)|
    ensures BlockAfter(cfg, r, i + 1) == BlockLeft(BlockAfter(cfg, r, i), |PayloadOf(cfg, r, i)|)
    ensures |PayloadOf(cfg, r, i)| == 0 ==> BlockAfter(cfg, r, i + 1) == BlockAfter(cfg, r, i)
  {
  }

  // ---------------------------------------------------------------- reading the stream

  /** The fields of record `i` lie in the stream one after the other. */
  lemma RecordFields(cfg: Config, r: Request, i: nat)
    requires i < |Records(r)|
    ensures var (base, path, data) := (Base(cfg, r, i), Records(r)[i], PayloadOf(cfg, r, i));
            && Base(cfg, r, i + 1) == base + 6 + |path| + |data| <= |Stream(cfg, r)|
            && Stream(cfg, r)[base..base + 2] == BigEndian(|path|, 2)
            && Stream(cfg, r)[base + 2..base + 6] == BigEndian(|Body(cfg.disk, path)|, 4)
            && Stream(cfg, r)[base + 6..base + 6 + |path|] == path
            && Stream(cfg, r)[base + 6 + |path|..base + 6 + |path| + |data|] == data
  {
    hide BigEndian, Payload, Body, Encode, Frame, EncodeAll;
    WorkerSteps.StreamAt(cfg, r, i);
    EncodedFields(cfg.disk, Records(r)[i]);
    hide Base, Stream, BigEndian, Payload, Body, Encode, Frame;
    var (stream, base, path, data) := (Stream(cfg, r), Base(cfg, r, i), Records(r)[i], PayloadOf(cfg, r, i));
    var bytes := Encode(cfg.disk, path);
    var end := base + |bytes|;
    SliceOfSlice(stream, base, end, 0, 2);
    SliceOfSlice(stream, base, end, 2, 6);
    SliceOfSlice(stream, base, end, 6, 6 + |path|);
    SliceOfSlice(stream, base, end, 6 + |path|, |bytes|);
  }

  lemma EncodedFields(disk: map<string, string>, path: string)
    ensures var (bytes, data) := (Encode(disk, path), Payload(Body(disk, path)));
            && |bytes| == 6 + |path| + |data|
            && bytes[0..2] == BigEndian(|path|, 2)
            && bytes[2..6] == BigEndian(|Body(disk, path)|, 4)
            && bytes[6..6 + |path|] == path
            && bytes[6 + |path|..|bytes|] == data
  {
    hide Payload, Body, BigEndian;
    var a, b, data := BigEndian(|path|, 2), BigEndian(|Body(disk, path)|, 4), Payload(Body(disk, path));
    assert Encode(disk, path) == a + b + path + data;
  }

  /** What has been written is the beginning of the stream. */
  lemma NextIsStream(cfg: Config, k: Conn, n: nat)
    requires k.down <= Stream(cfg, k.request) && n <= Available(k)
    ensures k.client.consumed + n <= |Stream(cfg, k.request)|
    ensures Next(k, n) == Stream(cfg, k.request)[k.client.consumed..k.client.consumed + n]
  {
    hide Stream;
  }

  /** The last record is the only one that starts with the termination message, every path fits its
      length field, and every file path has a place in the client's tree. */
  lemma RecordKinds(r: Request, i: nat)
    requires GoodRequest(r) && i < |Records(r)|
    ensures |Records(r)[i]| < TWO_16
    ensures EndsTransfer(Records(r)[i]) <==> i == |r.listing|
    ensures i < |r.listing| ==> Suffix(Records(r)[i], r.directory).Some?
  {
    hide Suffix, Root;
    var path := Records(r)[i];
    if i < |r.listing| {
      assert path in r.listing;
      ServableSuffix(r.directory, path);
    } else {
      assert |TERMINATION_MSG| == 25;
    }
  }

  /** The files received so far leave room for the next one. */
  lemma NextFits(cfg: Config, r: Request, i: nat)
    requires GoodRequest(r) && i < |r.listing|
    ensures Suffix(Records(r)[i], r.directory).Some?
    ensures Fits(FilesAfter(cfg, r, i), r.outDir, Suffix(Records(r)[i], r.directory).value)
  {
    hide Suffix, Rebuild, Root, Fits;
    var before, next := Records(r)[..i], Records(r)[i];
    assert forall p | p in before + [next] :: p in r.listing;
    RebuildFits(r.outDir, r.directory, cfg.disk, before, next);
  }

  lemma FilesAfterNext(cfg: Config, r: Request, i: nat)
    requires i < |Records(r)|
    ensures FilesAfter(cfg, r, i + 1)
         == Deliver(FilesAfter(cfg, r, i), r.outDir, r.directory, Records(r)[i], PayloadOf(cfg, r, i))
  {
    hide Deliver, Body, Payload;
    assert Records(r)[..i + 1][..i] == Records(r)[..i];
  }

  lemma FilesAfterNone(cfg: Config, r: Request)
    ensures FilesAfter(cfg, r, 0) == Fresh(r.outDir)
  {
    assert Records(r)[..0] == [];
  }

  // ---------------------------------------------------------------- acknowledgements

  lemma {:induction false} UpGrows(n: nat)
    ensures UpBytes(n + 1, false) == UpBytes(n, false) + ACK_MSG
    ensures UpBytes(n, true) == UpBytes(n, false) + TERM_MSG
  {
    if n == 0 {
      assert UpBytes(1, false) == ACK_MSG + UpBytes(0, false);
    } else {
      UpGrows(n - 1);
      assert UpBytes(n + 1, false) == ACK_MSG + UpBytes(n, false);
    }
  }

  /** What a client step leaves alone. */
  ghost predicate ClientFrame(k: Conn, k': Conn) {
    k' == k.(up := k'.up, client := k'.client)
  }

  /** A step that reads: nothing new on the way up. */
  lemma SilentStep(cfg: Config, k: Conn, k': Conn)
    requires ConnOk(cfg, k) && ClientFrame(k, k') && k'.up == k.up && ClientOk(cfg, k')
    requires !k.client.pc.Finished? && !k'.client.pc.Finished? && Acks(k'.client) == Acks(k.client)
    ensures ConnOk(cfg, k')
  {
    hide ClientOk, UpBytes, Acks, GoodRequest;
  }

  /** A step that acknowledges. */
  lemma AckStep(cfg: Config, k: Conn, k': Conn)
    requires ConnOk(cfg, k) && ClientFrame(k, k') && k'.up == k.up + ACK_MSG && ClientOk(cfg, k')
    requires !k.client.pc.Finished? && !k'.client.pc.Finished? && Acks(k'.client) == Acks(k.client) + 1
    ensures ConnOk(cfg, k')
  {
    UpGrows(Acks(k.client));
    hide ClientOk, UpBytes, Acks, GoodRequest;
  }

  lemma EndStep(cfg: Config, k: Conn, k': Conn)
    requires ConnOk(cfg, k) && ClientFrame(k, k') && k'.up == k.up + TERM_MSG && ClientOk(cfg, k')
    requires !k.client.pc.Finished? && k'.client.pc.Finished? && Acks(k'.client) == Acks(k.client)
    ensures ConnOk(cfg, k')
  {
    UpGrows(Acks(k.client));
    hide ClientOk, UpBytes, Acks, GoodRequest;
  }

  // ---------------------------------------------------------------- one step at a time

  lemma ReadsBlockSize(cfg: Config, k: Conn, k': Conn)
    requires GoodConfig(cfg) && ConnOk(cfg, k) && k.down <= Stream(cfg, k.request)
    requires k.client.pc.ReadBlockSize? && ClientStep(k) == Some(k')
    ensures ConnOk(cfg, k')
  {
    hide BlockAfter;
    hide UpOk, CommOk, Stream, EncodeAll, Rebuild, GoodRequest, BigEndian, FromBigEndian;
    NextIsStream(cfg, k, 4);
    CommSteps.StreamStarts(cfg, k.request);
    FieldRoundTrip(cfg.blockSize);
    FilesAfterNone(cfg, k.request);
    SilentStep(cfg, k, k');
  }

  lemma ReadsLength(cfg: Config, k: Conn, k': Conn)
    requires ConnOk(cfg, k) && k.down <= Stream(cfg, k.request)
    requires k.client.pc.ReadLength? && ClientStep(k) == Some(k')
    ensures ConnOk(cfg, k')
  {
    hide BlockAfter;
    hide UpOk, CommOk, Stream, Base, FilesAfter, PayloadOf, GoodRequest, BigEndian, FromBigEndian, Next;
    NextIsStream(cfg, k, 2);
    RecordFields(cfg, k.request, k.client.decoded);
    RecordKinds(k.request, k.client.decoded);
    FieldRoundTrip(|Records(k.request)[k.client.decoded]|);
    SilentStep(cfg, k, k');
  }

  lemma ReadsSize(cfg: Config, k: Conn, k': Conn)
    requires ConnOk(cfg, k) && k.down <= Stream(cfg, k.request)
    requires k.client.pc.ReadSize? && ClientStep(k) == Some(k')
    ensures ConnOk(cfg, k')
  {
    hide BlockAfter;
    hide UpOk, CommOk, Stream, Base, FilesAfter, GoodRequest, BigEndian, FromBigEndian, Next, Body;
    NextIsStream(cfg, k, 4);
    RecordFields(cfg, k.request, k.client.decoded);
    FieldRoundTrip(|Body(cfg.disk, Records(k.request)[k.client.decoded])|);
    SilentStep(cfg, k, k');
  }

  /** A record boundary, as the client reaches it. */
  lemma ReachesBoundary(cfg: Config, k: Conn, k': Conn, i: nat)
    requires GoodRequest(k.request) && k'.request == k.request && i < |Records(k.request)|
    requires k'.client.consumed
          == Base(cfg, k.request, i) + 6 + |Records(k.request)[i]| + |PayloadOf(cfg, k.request, i)|
    requires var path := Records(k.request)[i];
             k'.client.fs
             == if EndsTransfer(path) || Suffix(path, k.request.directory).None? then FilesAfter(cfg, k.request, i)
                else Place(FilesAfter(cfg, k.request, i), k.request.outDir, Suffix(path, k.request.directory).value,
                           PayloadOf(cfg, k.request, i))
    ensures Received(cfg, k', i + 1)
  {
    hide Base, FilesAfter, PayloadOf, GoodRequest, Place, Suffix, Stream, EndsTransfer;
    RecordFields(cfg, k.request, i);
    FilesAfterNext(cfg, k.request, i);
  }

  lemma TerminationIsEmpty(cfg: Config, r: Request)
    ensures |PayloadOf(cfg, r, |r.listing|)| == 0
  {
    assert Records(r)[|r.listing|] == TERMINATION_MSG;
  }

  /** The path that has arrived is the record's. */
  lemma PathArrives(cfg: Config, k: Conn)
    requires ConnOk(cfg, k) && k.down <= Stream(cfg, k.request) && k.client.pc.ReadPath? && ClientStep(k).Some?
    ensures k.client.decoded < |Records(k.request)| && k.client.pc.length == |Records(k.request)[k.client.decoded]|
    ensures k.client.pc.length <= Available(k) && Next(k, k.client.pc.length) == Records(k.request)[k.client.decoded]
  {
    var d, r := k.client.decoded, k.request;
    hide BlockAfter, UpOk, CommOk, Stream, Base, FilesAfter, PayloadOf, GoodRequest, Next, Suffix, Place, EndsTransfer;
    NextIsStream(cfg, k, |Records(r)[d]|);
    RecordFields(cfg, r, d);
  }

  lemma ReadsPath(cfg: Config, k: Conn, k': Conn)
    requires GoodConfig(cfg) && ConnOk(cfg, k) && k.down <= Stream(cfg, k.request)
    requires k.client.pc.ReadPath? && ClientStep(k) == Some(k')
    ensures ConnOk(cfg, k')
  {
    hide BlockAfter, BlockLeft, UpOk, CommOk, Stream, Base, FilesAfter, PayloadOf, GoodRequest, Next, Suffix, Place;
    hide EndsTransfer, Fits, ToInt32;
    PathArrives(cfg, k);
    if EndsTransfer(Records(k.request)[k.client.decoded]) {
      ReadsLastPath(cfg, k, k');
    } else {
      ReadsFilePath(cfg, k, k');
    }
    SilentStep(cfg, k, k');
  }

  lemma ReadsLastPath(cfg: Config, k: Conn, k': Conn)
    requires GoodConfig(cfg) && ConnOk(cfg, k) && k.down <= Stream(cfg, k.request)
    requires k.client.pc.ReadPath? && ClientStep(k) == Some(k') && k.client.decoded < |Records(k.request)|
    requires EndsTransfer(Records(k.request)[k.client.decoded])
    ensures ClientOk(cfg, k')
  {
    var d, r := k.client.decoded, k.request;
    hide BlockLeft, UpOk, CommOk, Stream, Base, FilesAfter, PayloadOf, GoodRequest, Next, Suffix, Place, EndsTransfer;
    hide BlockAfter, Fits, ToInt32;
    PathArrives(cfg, k);
    RecordKinds(r, d);
    TerminationIsEmpty(cfg, r);
    BlockAfterNext(cfg, r, d);
    ReachesBoundary(cfg, k, k', d);
  }

  lemma ReadsFilePath(cfg: Config, k: Conn, k': Conn)
    requires GoodConfig(cfg) && ConnOk(cfg, k) && k.down <= Stream(cfg, k.request)
    requires k.client.pc.ReadPath? && ClientStep(k) == Some(k') && k.client.decoded < |Records(k.request)|
    requires !EndsTransfer(Records(k.request)[k.client.decoded])
    ensures ClientOk(cfg, k')
  {
    var d, r := k.client.decoded, k.request;
    hide BlockLeft, UpOk, CommOk, Stream, Base, FilesAfter, PayloadOf, GoodRequest, Next, Suffix, Place, EndsTransfer;
    hide BlockAfter, Fits, ToInt32;
    PathArrives(cfg, k);
    RecordKinds(r, d);
    PayloadFits(cfg, r, d);
    CounterStops(|PayloadOf(cfg, r, d)|);
    NextFits(cfg, r, d);
    PlacedEmpty(FilesAfter(cfg, r, d), r.outDir, Suffix(Records(r)[d], r.directory).value, PayloadOf(cfg, r, d));
    if |PayloadOf(cfg, r, d)| == 0 {
      BlockAfterNext(cfg, r, d);
      ReachesBoundary(cfg, k, k', d);
    }
  }

  lemma PayloadFits(cfg: Config, r: Request, i: nat)
    requires i < |Records(r)|
    ensures |PayloadOf(cfg, r, i)| < TWO_32
  {
  }

  lemma PlacedEmpty(fs: Files, outDir: string, suffix: string, data: string)
    ensures Place(fs, outDir, suffix, "") == Place(fs, outDir, suffix, data[..0])
    ensures |data| == 0 ==> Place(fs, outDir, suffix, "") == Place(fs, outDir, suffix, data)
    ensures outDir + suffix in Place(fs, outDir, suffix, "").contents
            && Place(fs, outDir, suffix, "").contents[outDir + suffix] == ""
  {
    assert data[..0] == "";
  }

  /** Appending to a file that has been placed is placing the longer content. */
  lemma PlacedGrows(fs: Files, outDir: string, suffix: string, data: string, got: nat, n: nat)
    requires got + n <= |data|
    ensures var now := Place(fs, outDir, suffix, data[..got]);
            && outDir + suffix in now.contents && now.contents[outDir + suffix] == data[..got]
            && now.(contents := now.contents[outDir + suffix := data[..got] + data[got..got + n]])
            == Place(fs, outDir, suffix, data[..got + n])
  {
    hide Ancestors;
    assert data[..got] + data[got..got + n] == data[..got + n];
    var out := outDir + suffix;
    assert fs.contents[out := data[..got]][out := data[..got + n]] == fs.contents[out := data[..got + n]];
  }

  lemma CopiesChunk(cfg: Config, k: Conn, k': Conn)
    requires GoodConfig(cfg) && ConnOk(cfg, k) && k.down <= Stream(cfg, k.request)
    requires k.client.pc.ReadChunk? && ClientStep(k) == Some(k')
    ensures ConnOk(cfg, k')
  {
    hide UpOk, CommOk, Stream, Base, FilesAfter, PayloadOf, GoodRequest, Next, Suffix, Place, EndsTransfer;
    hide NextBlock, CountDown, ToInt32;
    hide BlockAfter, BlockLeft;
    var d, r := k.client.decoded, k.request;
    var ReadChunk(path, out, counter) := k.client.pc;
    var data, suffix := PayloadOf(cfg, r, d), Suffix(path, r.directory).value;
    var got, block := |k.client.fs.contents[out]|, NextBlock(counter, k.client.block);
    PlacedGrows(FilesAfter(cfg, r, d), r.outDir, suffix, data, got, 0);
    PayloadFits(cfg, r, d);
    CounterIsExact(|data| - got, k.client.block);
    CounterStops(|data| - got - block);
    BlockAfterNext(cfg, r, d);
    NextBlockKeeps(k.client.block, |data|, got, block);
    ChunkIsPayload(cfg, k, d, got, block);
    PlacedGrows(FilesAfter(cfg, r, d), r.outDir, suffix, data, got, block);
    PlacedGrows(FilesAfter(cfg, r, d), r.outDir, suffix, data, got + block, 0);
    if got + block == |data| {
      assert data[..got + block] == data;
      ReachesBoundary(cfg, k, k', d);
    }
    SilentStep(cfg, k, k');
  }

  lemma ChunkIsPayload(cfg: Config, k: Conn, d: nat, got: nat, n: nat)
    requires k.down <= Stream(cfg, k.request) && n <= Available(k) && d < |Records(k.request)|
    requires got + n <= |PayloadOf(cfg, k.request, d)|
    requires k.client.consumed == Base(cfg, k.request, d) + 6 + |Records(k.request)[d]| + got
    ensures Next(k, n) == PayloadOf(cfg, k.request, d)[got..got + n]
  {
    hide Stream, Base, PayloadOf, Next;
    NextIsStream(cfg, k, n);
    RecordFields(cfg, k.request, d);
    var data := PayloadOf(cfg, k.request, d);
    SliceOfSlice(Stream(cfg, k.request), k.client.consumed - got, k.client.consumed - got + |data|, got, got + n);
  }

  lemma AcknowledgesDirectory(cfg: Config, k: Conn, k': Conn)
    requires ConnOk(cfg, k) && k.client.pc.AckDirectory? && ClientStep(k) == Some(k')
    ensures ConnOk(cfg, k')
  {
    hide UpOk, CommOk, GoodRequest, Rebuild, Fresh;
    AckStep(cfg, k, k');
  }

  lemma AcknowledgesBlockSize(cfg: Config, k: Conn, k': Conn)
    requires GoodConfig(cfg) && ConnOk(cfg, k) && k.client.pc.AckBlockSize? && ClientStep(k) == Some(k')
    ensures ConnOk(cfg, k')
  {
    hide UpOk, CommOk, Base, FilesAfter, GoodRequest;
    AckStep(cfg, k, k');
  }

  lemma OneMoreAck(cl: Client, cl': Client)
    requires cl.pc.AckRecord? && cl'.decoded == cl.decoded + 1 && (cl'.pc.ReadLength? || cl'.pc.SendEnd?)
    ensures Acks(cl') == Acks(cl) + 1
  {
  }

  lemma AcknowledgesRecord(cfg: Config, k: Conn, k': Conn)
    requires ConnOk(cfg, k) && k.client.pc.AckRecord? && ClientStep(k) == Some(k')
    ensures ConnOk(cfg, k')
  {
    hide BlockAfter, BlockLeft, UpOk, CommOk, Base, FilesAfter, GoodRequest, EndsTransfer, Records, Acks;
    RecordKinds(k.request, k.client.decoded);
    OneMoreAck(k.client, k'.client);
    AckStep(cfg, k, k');
  }

  lemma Ends(cfg: Config, k: Conn, k': Conn)
    requires ConnOk(cfg, k) && k.client.pc.SendEnd? && ClientStep(k) == Some(k')
    ensures ConnOk(cfg, k')
  {
    hide UpOk, CommOk, Base, FilesAfter, GoodRequest;
    EndStep(cfg, k, k');
  }

  /** Every client step keeps its connection's part of the invariant. */
  lemma ClientStepKeepsConn(cfg: Config, k: Conn, k': Conn)
    requires GoodConfig(cfg) && ConnOk(cfg, k) && k.down <= Stream(cfg, k.request) && ClientStep(k) == Some(k')
    ensures ConnOk(cfg, k')
  {
    hide ConnOk, Stream, ClientOpens, ClientCopies, Next, Advance;
    match k.client.pc
    case AckDirectory => AcknowledgesDirectory(cfg, k, k');
    case ReadBlockSize => ReadsBlockSize(cfg, k, k');
    case AckBlockSize => AcknowledgesBlockSize(cfg, k, k');
    case ReadLength => ReadsLength(cfg, k, k');
    case ReadSize(_) => ReadsSize(cfg, k, k');
    case ReadPath(_, _) => ReadsPath(cfg, k, k');
    case ReadChunk(_, _, _) => CopiesChunk(cfg, k, k');
    case AckRecord(_) => AcknowledgesRecord(cfg, k, k');
    case SendEnd => Ends(cfg, k, k');
    case Finished =>
    case Faulted =>
  }

  lemma ClientStepFrame(k: Conn, k': Conn)
    requires ClientStep(k) == Some(k')
    ensures ClientFrame(k, k')
  {
    hide FromBigEndian, Suffix, Place, EndsTransfer, NextBlock, CountDown, ToInt32;
  }

  lemma ClientStepKeepsRecords(cfg: Config, s: State, c: nat, k': Conn, s': State)
    requires ConservationOk(s) && StreamsOk(cfg, s) && c < |s.conns| && ClientFrame(s.conns[c], k') && s'
             == s.SetConn(c, k')
    ensures ConservationOk(s') && StreamsOk(cfg, s')
  {
    hide ConservationOk, StreamsOk;
    ConservationKept(s, s');
    StreamsKept(cfg, s, s');
  }

  lemma DownIsStream(cfg: Config, s: State, c: nat)
    requires StreamsOk(cfg, s) && c < |s.conns|
    ensures s.conns[c].down <= Stream(cfg, s.conns[c].request)
  {
    assert DownOk(cfg, s.conns[c], WrittenInFlight(s, c));
  }

  lemma ClientStepKeeps(cfg: Config, s: State, c: nat, k': Conn, s': State)
    requires Inv(cfg, s) && c < |s.conns| && ClientStep(s.conns[c]) == Some(k') && s' == s.SetConn(c, k')
    ensures Inv(cfg, s')
  {
    hide ClientStep, QueueLockOk, NodeLockOk, SocketsDistinct, RegistryOk, QueueOk, WorkersOk, ConservationOk;
    hide StreamsOk, ConnOk, NotEmptyOk, NotFullOk;
    hide Names, AtNode, Sum, WorkerSleeps, InserterSleeps, Stream;
    var k := s.conns[c];
    assert ConnOk(cfg, k);
    DownIsStream(cfg, s, c);
    ClientStepKeepsConn(cfg, k, k');
    ClientStepFrame(k, k');
    QueueLockKept(s, s', CommThread(c)) by {
      CommSteps.HoldsExactly(s, c);
    }
    NodeLockKept(s, s');
    DescriptorsKept(s, s');
    QueueKept(cfg, s, s');
    WorkersKept(s, s', -1);
    ClientStepKeepsRecords(cfg, s, c, k', s');
    SumUpdate(s.conns, c, k', OwesNotEmpty);
    SumUpdate(s.conns, c, k', AwakeInserter);
    SleepersKept(s, s', -1);
    CommSteps.InsertersKept(s, s', c);
    NotEmptyKept(s, s');
    assert InserterSleeps(s') ==> InserterSleeps(s) by {
      SameInserters(s, s');
    }
    NotFullKept(cfg, s, s');
  }

  lemma SameInserters(s: State, s': State)
    requires |s'.conns| == |s.conns| && forall d | 0 <= d < |s.conns| :: s'.conns[d].comm == s.conns[d].comm
    ensures InserterSleeps(s') ==> InserterSleeps(s)
  {
    if InserterSleeps(s') {
      var d :| 0 <= d < |s'.conns| && s'.conns[d].comm.Asleep?;
      assert s.conns[d].comm.Asleep?;
    }
  }
}
