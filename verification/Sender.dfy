/** The worker's side of a transfer: `Server_Send_FileMetaData` and `Server_Send_Files_to_Client`. */
module Sender {
  import opened Wire
  import opened Transfer

  /** A buffer holding a string. */
  method NewBuffer(s: string) returns (buffer: array<char>)
    ensures fresh(buffer) && buffer[..] == s
  {
    buffer := new char[|s|](i requires 0 <= i < |s| => s[i]);
  }

  method SendString(fd: Descriptor, s: string)
    requires fd.schedule == [] && |s| < TWO_31
    modifies fd`output, fd`schedule
    ensures fd.schedule == [] && fd.output == old(fd.output) + s
  {
    var buffer := NewBuffer(s);
    SendData(fd, buffer, |s|);
  }

  /** Path length, size and path; returns the size as `(uint32_t) st_size`. */
  method SendFileMetaData(fd: Descriptor, path: string, content: string) returns (fileSize: nat)
    requires fd.schedule == [] && |path| < TWO_31
    modifies fd`output, fd`schedule
    ensures fd.schedule == [] && fileSize == |content| % TWO_32
    ensures fd.output == old(fd.output) + BigEndian(|path|, 2) + BigEndian(|content|, 4) + path
  {
    hide BigEndian;
    SendString(fd, BigEndian(|path|, 2));
    SendString(fd, BigEndian(|content|, 4));
    SendString(fd, path);
    fileSize := |content| % TWO_32;
  }

  /** The content loop: `Receive_Data` from the file, `Send_Data` to the client, block by block. The
      block size is the worker's own copy, so it shrinks for this file only. */
  method SendContent(fd: Descriptor, content: string, fileSize: nat, workerBlockSize: nat)
    requires fd.schedule == [] && fileSize <= |content| && 1 <= workerBlockSize < TWO_31
    modifies fd`output, fd`schedule
    ensures fd.schedule == [] && fd.output == old(fd.output) + content[..fileSize]
  {
    var blockSize := workerBlockSize;
    var buffer := new char[blockSize + 1];
    var file := new Descriptor(content);
    var bytesToSend: nat := fileSize;
    while bytesToSend != 0
      invariant bytesToSend <= fileSize && 1 <= blockSize < buffer.Length && blockSize <= workerBlockSize
      invariant fd.schedule == [] && file.schedule == []
      invariant file.input == content[fileSize - bytesToSend..]
      invariant fd.output == old(fd.output) + content[..fileSize - bytesToSend]
      decreases bytesToSend
    {
      if bytesToSend < blockSize {
        blockSize := bytesToSend;
      }
      NextBlockOf(content, fileSize - bytesToSend, blockSize);
      CopyBlock(file, fd, buffer, blockSize);
      bytesToSend := bytesToSend - blockSize;
      ClearBuffer(buffer, blockSize + 1);
    }
  }

  lemma NextBlockOf(content: string, sent: nat, n: nat)
    requires sent + n <= |content|
    ensures content[sent..][..n] == content[sent..sent + n]
    ensures content[sent..][n..] == content[sent + n..]
    ensures content[..sent] + content[sent..][..n] == content[..sent + n]
  {
  }

  /** Sends one queued record. The bytes written are its encoding, whatever the block size: for a file on
      the disk both sizes, the path and the file's own bytes. */
  method SendFilesToClient(fd: Descriptor, disk: map<string, string>, path: string, workerBlockSize: nat)
    requires fd.schedule == [] && |path| < TWO_31 && 1 <= workerBlockSize < TWO_31
    modifies fd`output, fd`schedule
    ensures fd.schedule == [] && fd.output == old(fd.output) + Encode(disk, path)
    ensures path in disk && path != TERMINATION_MSG && |disk[path]| < TWO_32 ==>
              fd.output
              == old(fd.output) + (BigEndian(|path|, 2) + BigEndian(|disk[path]|, 4) + path + disk[path])
  {
    hide BigEndian;
    if path in disk && path != TERMINATION_MSG {
      EncodedFile(disk, path);
    }
    if path != TERMINATION_MSG {
      var content := Contents(disk, path);
      hide Contents;
      var fileSize := SendFileMetaData(fd, path, content);
      SendContent(fd, content, fileSize, workerBlockSize);
      assert content[..fileSize] == Payload(content);
    } else {
      SendString(fd, BigEndian(|path|, 2));
      SendString(fd, BigEndian(0, 4));
      SendString(fd, path);
      assert Payload("") == "";
    }
  }
}
