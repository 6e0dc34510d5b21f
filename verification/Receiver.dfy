/** The client's side of a transfer: `Client_Get_FileMetaData` and `Client_CopyFiles`. */
module Receiver {
  import opened Wire
  import opened PathMapping
  import opened Transfer
  import opened Resolver
  import opened Sender
  import Codec
  import Protocol
  import opened Invariants
  import ClientSteps

  // ---------------------------------------------------------------- metadata

  predicate NulFree(s: string) {
    '\0' !in s
  }

  /** `strlen` */
  method StringLength(buffer: array<char>) returns (n: nat)
    requires exists i :: 0 <= i < buffer.Length && buffer[i] == '\0'
    ensures n < buffer.Length && buffer[n] == '\0' && NulFree(buffer[..n])
  {
    n := 0;
    while buffer[n] != '\0'
      invariant n < buffer.Length && NulFree(buffer[..n])
      invariant exists i :: n <= i < buffer.Length && buffer[i] == '\0'
      decreases buffer.Length - n
    {
      n := n + 1;
    }
  }

  /** The buffer holds a C string. */
  ghost predicate Holds(buffer: array<char>, s: string)
    reads buffer
  {
    && |s| < buffer.Length && buffer[..|s|] == s && NulFree(s)
    && forall i | |s| <= i < buffer.Length :: buffer[i] == '\0'
  }

  /** Reads the header of one record out of the stream, into a buffer that has been cleared. */
  method GetFileMetaData(fd: Descriptor, buffer: array<char>, ghost sent: string, ghost content: string)
    returns (path: string, fileSize: nat)
    requires fd.schedule == [] && buffer.Length == MAX_LENGTH + 1 && Holds(buffer, "")
    requires |sent| <= MAX_LENGTH && NulFree(sent) && Frame(sent, content) <= fd.input
    modifies fd`input, fd`schedule, buffer
    ensures fd.schedule == [] && fd.input == old(fd.input)[6 + |sent|..]
    ensures path == sent && fileSize == |content| % TWO_32 && Holds(buffer, sent)
  {
    HeaderFields(fd.input, sent, content);
    hide BigEndian, FromBigEndian, Frame, Payload;
    var lengthBuffer := new char[2];
    ReceiveData(fd, lengthBuffer, 2);
    assert lengthBuffer[..] == BigEndian(|sent|, 2);
    FieldRoundTrip(|sent|);
    var fileLength := FromBigEndian(lengthBuffer[..]);
    var sizeBuffer := new char[4];
    ReceiveData(fd, sizeBuffer, 4);
    assert sizeBuffer[..] == BigEndian(|content|, 4);
    FieldRoundTrip(|content|);
    fileSize := FromBigEndian(sizeBuffer[..]);
    ReceiveData(fd, buffer, fileLength);
    assert buffer[..] == sent + old(buffer[..])[|sent|..];
    assert Holds(buffer, sent) && buffer[|sent|] == '\0';
    var n := StringLength(buffer);
    assert n == |sent| by {
      assert forall i | 0 <= i < |sent| :: buffer[i] == sent[i] != '\0';
      assert forall i | 0 <= i < n :: buffer[i] == buffer[..n][i] != '\0';
    }
    path := buffer[..n];
  }

  lemma HeaderFields(input: string, path: string, content: string)
    requires Frame(path, content) <= input
    ensures |input| >= 6 + |path|
    ensures input[..2] == BigEndian(|path|, 2)
    ensures input[2..][..4] == BigEndian(|content|, 4)
    ensures input[2..][4..] == input[6..] && input[6..][..|path|] == path
    ensures input[6..][|path|..] == input[6 + |path|..]
  {
    var rest := FrameSplits(input, path, content);
    hide BigEndian, Frame;
    ThreeFields(BigEndian(|path|, 2), BigEndian(|content|, 4), path, rest);
  }

  lemma FrameSplits(input: string, path: string, content: string) returns (rest: string)
    requires Frame(path, content) <= input
    ensures input == BigEndian(|path|, 2) + (BigEndian(|content|, 4) + (path + rest))
  {
    hide BigEndian, Payload;
    rest := Payload(content) + input[|Frame(path, content)|..];
    assert input == Frame(path, content) + input[|Frame(path, content)|..];
  }

  lemma ThreeFields(a: string, b: string, path: string, rest: string)
    requires |a| == 2 && |b| == 4
    ensures var input := a + (b + (path + rest));
            && |input| >= 6 + |path| && input[..2] == a && input[2..][..4] == b
            && input[2..][4..] == input[6..] && input[6..][..|path|] == path
            && input[6..][|path|..] == input[6 + |path|..]
  {
    var input := a + (b + (path + rest));
    Peel(a, b + (path + rest));
    Peel(b, path + rest);
    Peel(path, rest);
    assert input[2..][4..] == input[6..];
    assert input[6..][|path|..] == input[6 + |path|..];
  }

  lemma Peel(head: string, tail: string)
    ensures (head + tail)[..|head|] == head && (head + tail)[|head|..] == tail
  {
  }

  // ---------------------------------------------------------------- the copy loop

  /** Receives `fileSize` bytes into a new file, the counter being a 32-bit `int` and the block size
      the client's, which shrinks for good. Returns the block size that is left. */
  method CopyContent(fd: Descriptor, file: Descriptor, contentBuffer: array<char>, fileSize: nat, clientBlockSize: nat)
    returns (blockSize: nat)
    requires fd != file && fd.schedule == [] && file.schedule == [] && file.output == ""
    requires fileSize < TWO_32 && fileSize <= |fd.input| && 1 <= clientBlockSize < contentBuffer.Length
             && clientBlockSize < TWO_31
    modifies fd`input, fd`schedule, file`output, file`schedule, contentBuffer
    ensures fd.schedule == [] && file.schedule == []
    ensures fd.input == old(fd.input)[fileSize..] && file.output == old(fd.input)[..fileSize]
    ensures blockSize == if fileSize % clientBlockSize == 0 then clientBlockSize else fileSize % clientBlockSize
  {
    hide Protocol.ToInt32, Protocol.NextBlock, Protocol.CountDown;
    blockSize := clientBlockSize;
    var bytesToRecv := Protocol.ToInt32(fileSize);
    ghost var rest: nat := fileSize;
    ghost var data := fd.input;
    ClientSteps.CounterStops(rest);
    while bytesToRecv != 0
      invariant rest <= fileSize && bytesToRecv == Protocol.ToInt32(rest) && (bytesToRecv == 0 <==> rest == 0)
      invariant fd.schedule == [] && file.schedule == []
      invariant fd.input == data[fileSize - rest..] && file.output == data[..fileSize - rest]
      invariant rest > 0 || fileSize == 0 ==> blockSize == clientBlockSize && (fileSize - rest) % clientBlockSize == 0
      invariant rest == 0 < fileSize ==> blockSize == Protocol.BlockLeft(clientBlockSize, fileSize)
      decreases rest
    {
      ClientSteps.CounterIsExact(rest, blockSize);
      ghost var next := if rest < blockSize then rest else blockSize;
      ClientSteps.NextBlockKeeps(clientBlockSize, fileSize, fileSize - rest, next);
      blockSize := Protocol.NextBlock(bytesToRecv, blockSize);
      NextBlockOf(data, fileSize - rest, blockSize);
      CopyBlock(fd, file, contentBuffer, blockSize);
      bytesToRecv := Protocol.CountDown(bytesToRecv, blockSize);
      rest := rest - blockSize;
      ClientSteps.CounterStops(rest);
      ClearBuffer(contentBuffer, 0);
    }
  }

  /** `strncmp(buffer, TERMINATION_MSG, strlen(TERMINATION_MSG)) == 0` on a buffer holding a string. */
  predicate BufferEndsTransfer(buffer: array<char>)
    requires buffer.Length == MAX_LENGTH + 1
    reads buffer
  {
    buffer[..|TERMINATION_MSG|] == TERMINATION_MSG
  }

  lemma BufferTest(buffer: array<char>, s: string)
    requires buffer.Length == MAX_LENGTH + 1 && Holds(buffer, s)
    ensures BufferEndsTransfer(buffer) <==> EndsTransfer(s)
  {
    var n := |TERMINATION_MSG|;
    assert n == 25;
    if |s| >= n {
      assert buffer[..n] == s[..n];
    } else {
      assert buffer[..n][|s|] == '\0' && TERMINATION_MSG[|s|] != '\0';
    }
  }

  /** The records still to come: the next one lies at the beginning of the input. */
  lemma NextRecord(disk: map<string, string>, records: seq<string>, i: nat, input: string)
    requires i < |records| && EncodeAll(disk, records) <= input
    ensures |EncodeAll(disk, records[..i])| <= |EncodeAll(disk, records[..i + 1])| <= |input|
    ensures Encode(disk, records[i]) <= input[|EncodeAll(disk, records[..i])|..]
    ensures input[|EncodeAll(disk, records[..i])|..][|Encode(disk, records[i])|..]
            == input[|EncodeAll(disk, records[..i + 1])|..]
  {
    hide EncodeAll, Encode;
    RecordAt(disk, records, i);
    var upTo, record := EncodeAll(disk, records[..i]), Encode(disk, records[i]);
    assert upTo + record <= input;
    assert input == (upTo + record) + input[|upTo + record|..];
    assert input == upTo + (record + input[|upTo + record|..]);
    Peel(upTo, record + input[|upTo + record|..]);
  }

  /** After the header of a record comes its payload. */
  lemma PayloadNext(disk: map<string, string>, path: string, input: string)
    requires Encode(disk, path) <= input
    ensures Encode(disk, path) == Frame(path, Body(disk, path))
    ensures |input| >= 6 + |path| + |Payload(Body(disk, path))|
    ensures input[6 + |path|..][|Payload(Body(disk, path))|..] == input[|Encode(disk, path)|..]
    ensures input[6 + |path|..][..|Payload(Body(disk, path))|] == Payload(Body(disk, path))
  {
    ClientSteps.EncodedFields(disk, path);
    hide Encode, Payload, Body;
    var bytes, data := Encode(disk, path), Payload(Body(disk, path));
    assert bytes[6 + |path|..] == data;
    assert input == bytes + input[|bytes|..];
    assert input[6 + |path|..] == bytes[6 + |path|..] + input[|bytes|..];
  }

  /** What the client can be sent: files no one of which lies below another, then the termination
      message. */
  ghost predicate Receivable(directory: string, records: seq<string>) {
    && records != [] && Servable(directory, records[..|records| - 1]) && records[|records| - 1] == TERMINATION_MSG
    && (forall i | 0 <= i < |records| :: |records[i]| <= MAX_LENGTH && NulFree(records[i]))
  }

  /** A path the client can place. */
  ghost predicate IsFilePath(directory: string, path: string) {
    && !EndsTransfer(path) && Suffix(path, directory).Some?
    && var suffix := Suffix(path, directory).value; |suffix| > 1 && suffix[0] == '/' && suffix[|suffix| - 1] != '/'
  }

  /** One round of the copy loop for a file: the tree gets the file, its content and its ancestors. */
  method ReceiveFile(fd: Descriptor, fs: OutputTree, contentBuffer: array<char>, path: string, fileSize: nat,
                     directory: string,
                     outDir: string, clientBlockSize: nat)
    returns (blockSize: nat)
    requires fd.schedule == [] && fileSize < TWO_32 && fileSize <= |fd.input|
    requires 1 <= clientBlockSize < contentBuffer.Length && clientBlockSize < TWO_31
    requires IsFilePath(directory, path) && Fits(fs.Value(), outDir, Suffix(path, directory).value)
    requires outDir + "/" in fs.dirs && Rooted(fs.Value(), outDir)
    modifies fd, fs, contentBuffer
    ensures fd.schedule == [] && fd.input == old(fd.input)[fileSize..] && fd.output == old(fd.output)
    ensures blockSize == Protocol.BlockLeft(clientBlockSize, fileSize)
    ensures fs.Value() == Place(old(fs.Value()), outDir, Suffix(path, directory).value, old(fd.input)[..fileSize])
    ensures Rooted(fs.Value(), outDir) && outDir + "/" in fs.dirs
  {
    hide Suffix, Ancestors, Root, Place, Rooted, Fits;
    var suffix := Suffix(path, directory).value;
    PlaceIs(fs.Value(), outDir, suffix, fd.input[..fileSize]);
    var copied, visited, file := Resolve(fs, outDir, suffix);
    blockSize := CopyContent(fd, file, contentBuffer, fileSize, clientBlockSize);
    fs.Close(copied, file);
  }

  lemma PlaceIs(fs: Files, outDir: string, suffix: string, data: string)
    requires |suffix| > 1 && suffix[0] == '/' && suffix[|suffix| - 1] != '/' && Rooted(fs, outDir)
    ensures Place(fs, outDir, suffix, data)
         == Files(fs.dirs + Ancestors(outDir, suffix), fs.contents[outDir + suffix := ""][outDir + suffix := data])
    ensures Rooted(Place(fs, outDir, suffix, data), outDir)
  {
    hide Ancestors;
    assert (outDir + suffix)[|outDir + suffix| - 1] == suffix[|suffix| - 1];
    assert fs.contents[outDir + suffix := ""][outDir + suffix := data] == fs.contents[outDir + suffix := data];
  }

  /** The termination message, or a file there is room for. */
  ghost predicate Deliverable(fs: Files, outDir: string, directory: string, record: string) {
    record == TERMINATION_MSG || (IsFilePath(directory, record) && Fits(fs, outDir, Suffix(record, directory).value))
  }

  /** One round of the loop up to the acknowledgement. */
  method ReceiveRecord(fd: Descriptor, fs: OutputTree, buffer: array<char>, contentBuffer: array<char>,
                       directory: string, outDir: string,
                       clientBlockSize: nat, ghost disk: map<string, string>, ghost record: string)
    returns (blockSize: nat)
    requires fd.schedule == [] && buffer.Length == MAX_LENGTH + 1 && buffer != contentBuffer && buffer[MAX_LENGTH]
             == '\0'
    requires 1 <= clientBlockSize < contentBuffer.Length && clientBlockSize < TWO_31
    requires |record| <= MAX_LENGTH && NulFree(record) && Encode(disk, record) <= fd.input
    requires Deliverable(fs.Value(), outDir, directory, record)
    requires outDir + "/" in fs.dirs && Rooted(fs.Value(), outDir)
    modifies fd, fs, buffer, contentBuffer
    ensures fd.schedule == [] && fd.input == old(fd.input)[|Encode(disk, record)|..] && fd.output == old(fd.output)
    ensures Holds(buffer, record) && buffer[MAX_LENGTH] == '\0'
    ensures blockSize == Protocol.BlockLeft(clientBlockSize, |Payload(Body(disk, record))|)
    ensures fs.Value() == Deliver(old(fs.Value()), outDir, directory, record, Payload(Body(disk, record)))
    ensures Rooted(fs.Value(), outDir) && outDir + "/" in fs.dirs
  {
    PayloadNext(disk, record, fd.input);
    hide Suffix, Payload, EndsTransfer, Place, Root, Body, Encode, Frame, NulFree, Rooted, Fits, IsFilePath;
    hide Deliverable, Deliver;
    DeliveryIs(fs.Value(), outDir, directory, disk, record);
    ClearBuffer(buffer, MAX_LENGTH);
    NothingHeld(buffer);
    ghost var content := Body(disk, record);
    var path, fileSize := GetFileMetaData(fd, buffer, record, content);
    PayloadLength(content);
    blockSize := clientBlockSize;
    if !EndsTransfer(path) {
      blockSize := ReceiveFile(fd, fs, contentBuffer, path, fileSize, directory, outDir, clientBlockSize);
    }
  }

  /** What a record that can be delivered does to the tree. */
  lemma DeliveryIs(fs: Files, outDir: string, directory: string, disk: map<string, string>, record: string)
    requires Deliverable(fs, outDir, directory, record)
    ensures var data := Payload(Body(disk, record));
            if EndsTransfer(record) then data == "" && Deliver(fs, outDir, directory, record, data) == fs
            else
              && IsFilePath(directory, record) && Suffix(record, directory).Some?
              && Fits(fs, outDir, Suffix(record, directory).value)
              && Deliver(fs, outDir, directory, record, data)
              == Place(fs, outDir, Suffix(record, directory).value, data)
  {
    hide Suffix, Place, Fits;
  }

  lemma PayloadLength(content: string)
    ensures |Payload(content)| == |content| % TWO_32 < TWO_32
  {
  }

  /** One round of the loop: a record, its acknowledgement, and the test for the last one. */
  method CopyRound(fd: Descriptor, fs: OutputTree, buffer: array<char>, contentBuffer: array<char>, directory: string,
                   outDir: string,
                   clientBlockSize: nat, ghost disk: map<string, string>, ghost record: string)
    returns (blockSize: nat, done: bool)
    requires fd.schedule == [] && buffer.Length == MAX_LENGTH + 1 && buffer != contentBuffer && buffer[MAX_LENGTH]
             == '\0'
    requires 1 <= clientBlockSize < contentBuffer.Length && clientBlockSize < TWO_31
    requires |record| <= MAX_LENGTH && NulFree(record) && Encode(disk, record) <= fd.input
    requires Deliverable(fs.Value(), outDir, directory, record)
    requires outDir + "/" in fs.dirs && Rooted(fs.Value(), outDir)
    modifies fd, fs, buffer, contentBuffer
    ensures fd.schedule == [] && fd.input == old(fd.input)[|Encode(disk, record)|..] && fd.output
            == old(fd.output) + ACK_MSG
    ensures buffer[MAX_LENGTH] == '\0'
    ensures blockSize == Protocol.BlockLeft(clientBlockSize, |Payload(Body(disk, record))|)
    ensures done <==> EndsTransfer(record)
    ensures fs.Value() == Deliver(old(fs.Value()), outDir, directory, record, Payload(Body(disk, record)))
    ensures Rooted(fs.Value(), outDir) && outDir + "/" in fs.dirs
  {
    hide Protocol.BlockLeft;
    hide Encode, Root, Payload, Body, EndsTransfer, Deliver, Rooted, BufferEndsTransfer, NulFree, Holds, Deliverable;
    blockSize := ReceiveRecord(fd, fs, buffer, contentBuffer, directory, outDir, clientBlockSize, disk, record);
    SendString(fd, ACK_MSG);
    BufferTest(buffer, record);
    done := BufferEndsTransfer(buffer);
  }

  lemma NothingHeld(buffer: array<char>)
    requires forall i | 0 <= i < buffer.Length :: buffer[i] == '\0'
    ensures buffer.Length > 0 ==> Holds(buffer, "")
  {
  }

  /** `Client_CopyFiles`: from the encodings of the records the client rebuilds the tree, consumes
      exactly those bytes, and acknowledges every record. The block size it starts from need not be
      the server's. */
  method CopyFiles(fd: Descriptor, directory: string, outDir: string, clientBlockSize: nat,
                   ghost disk: map<string, string>, ghost records: seq<string>)
    returns (fs: OutputTree)
    requires fd.schedule == [] && Receivable(directory, records) && EncodeAll(disk, records) <= fd.input
    requires 1 <= clientBlockSize < TWO_31
    modifies fd
    ensures fresh(fs) && fs.Value() == Rebuild(outDir, directory, disk, records)
    ensures fd.input == old(fd.input)[|EncodeAll(disk, records)|..]
    ensures fd.output == old(fd.output) + UpBytes(|records|, false)
  {
    hide EncodeAll, Encode, Root, Suffix, Place, Payload, Body, EndsTransfer, Deliver, UpBytes, Receivable;
    hide Rebuild, Rooted, BufferEndsTransfer, NulFree, Holds, Fresh, Deliverable;
    fs := new OutputTree(outDir);
    var buffer := new char[MAX_LENGTH + 1](i => '\0');
    var contentBuffer := new char[clientBlockSize + 1];
    var blockSize := clientBlockSize;
    var done := false;
    ghost var i := 0;
    NothingYet(directory, outDir, disk, records);
    while !done
      invariant 0 <= i <= |records| && (done <==> i == |records|)
      invariant fresh(fs) && fd.schedule == [] && buffer[MAX_LENGTH] == '\0' && 1 <= blockSize <= clientBlockSize
      invariant |EncodeAll(disk, records[..i])| <= |old(fd.input)| && fd.input
                == old(fd.input)[|EncodeAll(disk, records[..i])|..]
      invariant fd.output == old(fd.output) + UpBytes(i, false)
      invariant fs.Value() == Rebuild(outDir, directory, disk, records[..i])
      invariant Rooted(fs.Value(), outDir) && outDir + "/" in fs.dirs
      decreases |records| - i
    {
      NextRecord(disk, records, i, old(fd.input));
      ClientSteps.UpGrows(i);
      RebuildNext(outDir, directory, disk, records, i);
      RecordIsReceivable(outDir, directory, disk, records, i);
      blockSize, done := CopyRound(fd, fs, buffer, contentBuffer, directory, outDir, blockSize, disk, records[i]);
      Reassociate(old(fd.output), UpBytes(i, false), ACK_MSG);
      i := i + 1;
    }
    assert records[..i] == records;
  }

  lemma NothingYet(directory: string, outDir: string, disk: map<string, string>, records: seq<string>)
    requires Receivable(directory, records)
    ensures EncodeAll(disk, records[..0]) == "" && UpBytes(0, false) == "" && records != []
    ensures Rebuild(outDir, directory, disk, records[..0]) == Fresh(outDir) && Rooted(Fresh(outDir), outDir)
            && outDir + "/" in Fresh(outDir).dirs
  {
  }

  lemma RebuildNext(outDir: string, directory: string, disk: map<string, string>, records: seq<string>, i: nat)
    requires i < |records|
    ensures Rebuild(outDir, directory, disk, records[..i + 1])
         == Deliver(Rebuild(outDir, directory, disk, records[..i]), outDir, directory, records[i],
                    Payload(Body(disk, records[i])))
  {
    hide Deliver, Payload, Body;
    assert records[..i + 1][..i] == records[..i];
  }

  lemma RecordIsReceivable(outDir: string, directory: string, disk: map<string, string>, records: seq<string>, i: nat)
    requires Receivable(directory, records) && i < |records|
    ensures |records[i]| <= MAX_LENGTH && NulFree(records[i])
    ensures EndsTransfer(records[i]) <==> i == |records| - 1
    ensures Deliverable(Rebuild(outDir, directory, disk, records[..i]), outDir, directory, records[i])
  {
    hide Root, Suffix, Rebuild, Fits, EndsTransfer, Servable, NulFree;
    Codec.TerminationEnds();
    if i < |records| - 1 {
      FileIsReceivable(outDir, directory, disk, records[..|records| - 1], i);
      assert records[..|records| - 1][..i] == records[..i];
    }
  }

  lemma FileIsReceivable(outDir: string, directory: string, disk: map<string, string>, files: seq<string>, i: nat)
    requires Servable(directory, files) && i < |files|
    ensures IsFilePath(directory, files[i])
    ensures Fits(Rebuild(outDir, directory, disk, files[..i]), outDir, Suffix(files[i], directory).value)
  {
    hide Root, Suffix, Rebuild, Fits, EndsTransfer;
    assert files[i] in files;
    ServableSuffix(directory, files[i]);
    assert forall p | p in files[..i] + [files[i]] :: p in files;
    RebuildFits(outDir, directory, disk, files[..i], files[i]);
  }
}
