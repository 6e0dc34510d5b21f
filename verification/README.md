# A verified model of the remote directory copier

The server serves many clients at once. One communication thread per client walks the requested
directory tree and pushes `<socket, path>` records into one bounded queue; a pool of worker threads
pops records and writes each of them, as one framed message, on the socket of the client it belongs to;
every client decodes its byte stream, rebuilds the tree below an output directory and acknowledges
each record. This project models those three parts in Dafny and proves that they fit together.

The main result is `EndToEnd.EveryClientGetsItsCopy`: whatever the interleaving, once a run without ^C
has come to rest, every client holds exactly one output file per regular file of the tree it asked
for, with its content, exactly the directories on the way to those files, and no file where a
directory is. It holds for sockets that are large enough for the requests, and
`SocketSizes.AlwaysServedIff` says exactly which are. Together with `Termination.RunsAreBounded` (no run
can go on for ever, unless by spurious wake-ups) and `EndToEnd.EveryRunCanComplete`, every run gets
there.

## How the project is laid out

| files | what they hold |
|---|---|
| `Wire`, `Codec`, `PathMapping` | the framing, an independent decoder for it, and the string functions that place a server path in the client's tree |
| `Protocol` | main, the threads, the mutexes, both condition variables, the sockets with their limited room and the clients as one state machine; every stretch between lock, unlock, wait, signal, read and write is its own step |
| `Invariants`, `Frames`, `WorkerSteps`, `CommSteps`, `ClientSteps`, `System` | one global invariant, and that every step keeps it |
| `Progress`, `Rooms`, `Jam`, `SocketSizes`, `Termination` | deadlock freedom, how full sockets bring the server to a stand, exactly when they cannot, and a measure that bounds every run |
| `Shutdown`, `ShutdownOutcome`, `InterruptOutcome` | what happens to the workers after ^C, from the broadcast on and from the signal on |
| `Safety`, `NodeInUse`, `EndToEnd`, `FileTree` | the theorems about all reachable states and all complete runs, and the tree walk |
| `LinkedQueue`, `ServerThreads` | the heap queue of `sources/Queue.c`, and the server's threads on two such queues, each stretch that touches a queue refining its step of the state machine, so that the heap queues follow every run of the machine |
| `Transfer`, `Sender`, `Receiver`, `Resolver`, `Extractor` | the loops of `sources/CommonFuncs.c`, `sources/Server.c` and `sources/Client.c`, on buffers, descriptors and heap queues, proved against the same functions the state machine uses |

The worker, the communication thread and the client of the state machine carry out exactly the
functions the loops are proved against: a worker's bytes are `Wire.Encode`, which `Sender.SendFilesToClient`
emits; a client's files are `PathMapping.Rebuild`, which `Receiver.CopyFiles` computes; a
thread's listing is `FileTree.Walk`, which `Extractor.ExtractAll` inserts
(`ServerThreads.ExtractedAreRecords`).

## What is assumed

- A descriptor number is never given to a new connection while another one with that number is
  open. Numbers may be reused after `close`.
- Paths have at most `MAX_LENGTH` characters, and, where a path is read out of a C buffer, no NUL.
- The requested directory contains a `/` (`sources/Client.c:191-192` dereferences `strrchr`'s result).
- The served tree is finite and does not change during a run; entry names are distinct within a
  directory and contain no `/`.
- The queue capacity and the pool size are at least 1 and the block size lies in [1, 2^31)
  (`sources/dataServer.c:16-39`).
- The output directory is fresh.
- A connection holds a fixed number of unread bytes in each direction, and a `write` that finds no room
  waits. A record is written in arbitrary positive pieces, a message of the client in one, and `read`
  delivers what is asked for once that much has arrived. The peer stays open.
- Where progress is claimed, one message of the client fits towards the server, and a path and a block
  fit towards the client (`Progress.FieldsFit`); everything else about the room is part of the results.
- ^C is delivered to the thread that runs `main`.

No bound on file sizes is assumed. The server sends `(uint32_t) st_size` bytes of a file, so a copy
holds the first `st_size mod 2^32` bytes, and it is whole if and only if the file is below 4 GiB
(`EndToEnd.CopyIsWholeIff`).

## Where the code does not do what its documentation promises

- `sources/Client.c:175-178` promises the server's hierarchy below the output directory. It appears
  directly below it if and only if the requested directory does not occur earlier in its own
  server path (`PathMapping.KeepsOnlyLastComponentIff`); asking for `e/u` shows the difference, because
  `/home/users/` contains it. The copy is complete in either case.
- The server can stop for good, for all its clients, when one of them asks for a large tree. The
  communication thread reads no acknowledgement of a record before all records are inserted
  (`sources/Server.c:55-67`), and the client writes one after every record (`sources/Client.c:127`). When
  the socket towards the server is full the client no longer reads, the socket towards the client
  fills, the worker waits in `write` with the node mutex locked, and the next worker with a record of that
  client waits for it with the queue mutex locked. A client is always served, whoever else is there
  with requests that can be, if and only if all its files lie within what the client reads before it
  has to write one acknowledgement too many, and a socket full (`SocketSizes.AlwaysServedIff`). It is
  ever served if and only if this is true of all its files but the last `queue_size`
  (`SocketSizes.SometimesServedIff`); otherwise no run serves it (`Rooms.NeverServed`).
- ^C does not always end the server. A worker that has tested the queue but is not yet asleep when main
  broadcasts misses the broadcast (`Shutdown.WorkerCanBeStranded`), and a ^C that falls between main's
  test of the flag and its call of `accept` is not noticed until another client connects
  (`InterruptOutcome.InterruptCanBeMissed`). `InterruptOutcome.AllWorkersLeaveAfterInterruptIff` and
  `ShutdownOutcome.AllWorkersLeaveIff` say exactly when that matters, from the signal and from the broadcast
  on. All workers are sure to leave, spurious wake-ups or not, if and only if no worker is on its
  way into the wait, or some open connection still has a record to insert: its signal then wakes the
  sleeper. After the broadcast it is otherwise up to the schedule whether a signal that some
  communication thread still owes comes after the worker has gone to sleep; with no such signal the
  worker sleeps, and main waits for it, for ever.
- `Send_Data` and `Receive_Data` pass the start of the buffer to every `write` and `read`. A given
  division into calls hands on every buffer unchanged if and only if it is a single call
  (`Transfer.SendIsExactIff`, `Transfer.ReceiveIsExactIff`).

## Model

| member | source | states |
|---|---|---|
| EndToEnd.EveryClientGetsItsCopy | sources/Server.c:160-237 | with sockets that hold every request, for a tree whose files are on the server's disk below `DEFAULT_DIR` + directory: in every run that has come to rest without ^C, every client has finished, has read its whole stream, sent n+3 `ACK`s and one `END`, all of them read by the server, and holds exactly the copy of the walked tree, with the bytes on the disk |
| EndToEnd.OneClientIsServedIff | sources/Server.c:55-78 | with one worker and one client, and sockets that hold at least a field, every run that has come to rest without ^C has served the client if and only if all its records can enter the queue while the sockets fill |
| SocketSizes.AlwaysServedIff | sources/Server.c:55-78 | a request is served in every run at rest of every system whose other requests fit the sockets if and only if it fits them itself: all its files lie within the client's reach |
| SocketSizes.SometimesServedIff | sources/Server.c:55-78 | some run of some system serves a request if and only if all its files but the last `capacity` lie within the client's reach |
| Rooms.NeverServed | sources/Client.c:120-130 | a request too large for that is served in no run, whoever else is there: its records never all enter the queue and its client never finishes |
| Rooms.LastInsertionNeeds | sources/Server.c:256-262 | the last record enters the queue only when enough files have been sent for the sockets to hold the rest |
| Rooms.HeldUpMeans | sources/Server.c:424-438 | when neither a sending worker, nor its client, nor their communication thread can go on, that thread still has a record to insert and the server has written as far as the client's reach |
| Rooms.RoomyServes | sources/Server.c:424-438 | if all requests fit the sockets, whenever a worker is sending somebody can go on |
| Rooms.SoleServes | sources/Server.c:256-268 | so it is for one worker and one client as soon as all records can enter the queue |
| Rooms.RunKeepsRooms | sources/CommonFuncs.c:27-37 | in every reachable state no socket holds more unread bytes than it has room for |
| Jam.CanStandStill | sources/Server.c:424-432 | for every request that does not fit the sockets: a run without ^C and spurious wake-ups, with one worker and `capacity` other clients asking for empty directories, that comes to rest with that client not served |
| EndToEnd.RebuildIsCopy | sources/Client.c:70-135 | receiving the first n records of a listing of distinct files gives one output file each with the bytes on the server's disk (the first size mod 2^32 of them), nothing else, exactly the ancestor directories of those files, and no output file has the name of a directory |
| EndToEnd.CopyIsWholeIff | sources/Server.c:295-301 | a delivered file equals the served one if and only if it is smaller than 4 GiB |
| EndToEnd.GoneIsServed | sources/Server.c:62-89 | a connection the server has closed has had its whole stream written, rebuilt and acknowledged |
| EndToEnd.EveryRunCanComplete | sources/Server.c:407-441 | every run extends, without ^C and spurious wake-ups, to one that has come to rest |
| EndToEnd.ServedListingIsGood | sources/Server.c:185-204 | the walk itself provides what the protocol needs of a listing: every path strictly below the requested root, ending in a name, and none below another one |
| System.StepKeeps | sources/Server.c:407-441 | every step of every thread, of main, of ^C and of spurious wake-ups keeps the global invariant |
| System.RunKeepsInvariant | sources/dataServer.c:111-159 | every state of every run satisfies the invariant |
| WorkerSteps.WorkerStepKeeps | sources/Server.c:413-441 | each worker step keeps the invariant, the node mutex being taken while the queue mutex is still held |
| CommSteps.CommStepKeeps | sources/Server.c:245-268 | each communication thread step keeps the invariant |
| ClientSteps.ClientStepKeeps | sources/Client.c:89-130 | each client step keeps the invariant, so the client's position always agrees with a field of the listing's encoding |
| Safety.RecordsAreConserved | sources/Server.c:245-268 | in every reachable state, sent records, the one in flight, the one held by a worker waiting for the node mutex, the queued ones of this socket and the uninserted ones are, in order, the listing followed by the termination record |
| Safety.BytesAreWholeRecords | sources/Server.c:415-438 | a socket's bytes are the block size, the encodings of the completed records and a proper prefix of the next one, never an interleaving |
| Safety.WritesGoToTheRightClient | sources/Server.c:424-435 | the descriptor a worker writes to leads to the connection its record was queued for, although descriptor numbers are reused, and the record is that connection's next one |
| Safety.OneWorkerPerConnection | sources/Server.c:428-438 | at most one worker works on a connection, and at most one holds a record without its node mutex |
| Safety.LocksAreHeldAt | sources/Server.c:416-438 | a worker finds and locks its node while it holds the queue mutex, signals and sends with the node mutex only; a communication thread tests and inserts under the queue mutex and signals after the unlock; nobody sleeps with it |
| Safety.LookupsSucceed | sources/Server.c:428-429 | every lookup of a worker finds the node of the one open connection with that descriptor |
| Safety.RegistryIsDistinct | sources/Server.c:29-32 | the sockets in the registry are pairwise distinct |
| Safety.DeletedNodeIsUnused | sources/Server.c:80-89 | when a node is about to be deleted no queued record and no worker before its unlock refers to it, and the whole stream has been written |
| Safety.DeletedNodeIsFreeIff | sources/Server.c:82-84 | of all places where a worker can hold the mutex of a node about to be deleted, one is left: just before the unlock; the mutex is free if and only if no worker is there |
| NodeInUse.DeletedWhileLocked | sources/Server.c:435-438 | a run in which it is locked |
| Safety.AcknowledgementsAreAligned | sources/Server.c:62-78 | the server reads whole 3-byte messages and leaves its loop only after the client has decoded the termination record, with every byte consumed |
| Safety.ClientBlockSize | sources/Client.c:102-117 | between two records the client's block size is what the remainders of the sizes of all files so far have left of the server's, at least 1 |
| Safety.QueueIsBounded | sources/Server.c:256-262 | the queue never holds more than its capacity, and a thread that inserts has found room |
| Safety.NoLostWorkerWakeUp | sources/Server.c:263-265 | while a worker sleeps, queued records are covered by awake workers and by signals still to be sent after the unlock |
| Safety.NoLostInserterWakeUp | sources/Server.c:432-433 | while a communication thread sleeps, free slots are covered by awake inserters and signals still to be sent |
| Safety.BusyWorkerIgnoresInterrupt | sources/Server.c:413-438 | a worker that has popped takes the same steps whether or not ^C arrives, and its only way out is through its unlock |
| Safety.ShutdownCutsAtRecords | sources/Server.c:420-423 | once all workers have left, no mutex is theirs, every stream ends at a record boundary and sent, queued and uninserted records are still the listing |
| WorkerSteps.SendsNextRecord | sources/Server.c:435 | a worker in the send loop holds the node mutex and sends exactly the next record of its connection |
| WorkerSteps.LookupSucceeds | sources/Queue.c:170-180 | for a socket with an open registered connection the first node found is that connection's |
| CommSteps.NothingLeftAtTheEnd | sources/Server.c:80-84 | at deregistration nothing of the connection is queued, held or in flight |
| CommSteps.UpMessage | sources/Client.c:41-57 | the client's bytes cut in threes give `ACK` for every message but the last and `END` only when it has finished |
| ClientSteps.CounterIsExact | sources/Client.c:102-117 | the signed 32-bit counter, compared and subtracted as `size_t`, picks the block the true remaining count picks and never block 0, also while it is negative |
| ClientSteps.CounterStops | sources/Client.c:102-105 | the counter is zero exactly when nothing remains |
| ClientSteps.NextBlockKeeps | sources/Client.c:107-108 | blocks are whole until the last one, whose length is the remainder and becomes the block size |
| ClientSteps.RecordKinds | sources/Client.c:97 | of all records of a listing only the last one passes the client's prefix test, and every file path has a place in the client's tree |
| ClientSteps.NextFits | sources/Client.c:226-246 | a client never has to exit over a file where it needs a directory, or the reverse |
| ClientSteps.RecordFields | sources/Server.c:290-299 | the four fields of record i lie one after the other at the record's own place in the stream |
| Rooms.NoDeadlock | sources/Server.c:248-265 | if all requests fit the sockets, in every reachable state with the server running and a connection open some thread or client can take a step that is not spurious |
| Progress.OnlySocketsBlock | sources/Server.c:416-438 | apart from workers held up before full sockets there is no deadlock, whatever the requests: the two mutexes and the condition variables alone never stop the server |
| Progress.NodeWaiterIsServed | sources/Server.c:424-438 | the queue-mutex holder may wait for a node mutex, but then the holder of that mutex can move, unless it is held up before a full socket |
| Progress.NoLostWakeUp | sources/Server.c:416-433 | if every thread of the server is blocked, the queue is empty and no inserter sleeps |
| Progress.ClientMoves | sources/Client.c:89-130 | a client whose stream is complete has a step to take, which only a full socket can delay |
| Progress.AwaitedClientHasRoom | sources/Client.c:41-57 | and none does when its communication thread waits for a message |
| Termination.StepDecreases | sources/Server.c:407-441 | a measure over uninserted and queued records, unsent bytes, pending signals, awake threads and client progress falls at every step, and a spurious wake-up raises it by at most a constant |
| Termination.RunsAreBounded | sources/Server.c:55-78 | the number of steps of any run is at most the measure of its first state plus a constant times its spurious wake-ups |
| Shutdown.WorkerCanBeStranded | sources/Server.c:417-419 | a concrete run without spurious wake-ups after which the only worker sleeps for ever and main waits for it |
| Shutdown.NoNewDoom | sources/Server.c:413-423 | after the broadcast no step of any kind, spurious wake-ups included, sends a worker to sleep that was not on its way there |
| Shutdown.AfterBroadcast | sources/Server.c:452-459 | the broadcast makes every sleeping worker want the mutex back and changes no other worker |
| Shutdown.AllLeaveUnlessOneWaits | sources/Server.c:452-459 | with requests that fit the sockets, in every run with no worker on its way into the wait at the broadcast, whatever is open and whatever wakes up unprompted, all workers have left at rest |
| Shutdown.DoomIsFinal | sources/Server.c:452-459 | after the broadcast, once no communication thread can signal a worker any more, a worker that went to sleep stays asleep and one that did not never does |
| Shutdown.StrandedForEver | sources/Server.c:417-419 | in every run from such a state on, a worker going to sleep is asleep at rest |
| ShutdownOutcome.PendingInsertionFreesAll | sources/Server.c:256-265 | with requests that fit the sockets, if some open connection has records left to insert at the broadcast, all workers have left at rest, whatever wakes up unprompted |
| ShutdownOutcome.AllWorkersLeaveIff | sources/Server.c:452-459 | from the broadcast on, all workers leave in every continuation, spurious wake-ups included, if and only if none is on its way into the wait or some open connection has a record to insert; they leave in some continuation without spurious wake-ups if and only if one of these holds or a signal is still owed |
| InterruptOutcome.AllWorkersLeaveAfterInterruptIff | sources/dataServer.c:116-159 | from a ^C that does not fall between main's test and its call of `accept` on, all workers leave in every continuation if and only if none is on its way into the wait or some open connection has a record to insert; in some continuation they always do |
| InterruptOutcome.AllWorkersLeaveOnceNoticedIff | sources/dataServer.c:116-159 | the same from any later moment at which main has noticed ^C and has not yet broadcast |
| InterruptOutcome.NoticedAtOnceIff | sources/dataServer.c:116-122 | main notices a ^C at once, a blocked `accept` returning, if and only if it does not fall between the test and the call |
| InterruptOutcome.NoticedAtNextConnection | sources/dataServer.c:116-151 | a missed ^C is noticed when the next client connects |
| InterruptOutcome.NothingInsertedMeanwhile | sources/Server.c:416-418 | a worker on its way into the wait keeps every open connection's next record out of the queue |
| InterruptOutcome.MissedInterrupt | sources/dataServer.c:116-122 | after a ^C between the test and the call main stays before or in `accept` until a client connects or ^C comes again |
| InterruptOutcome.InterruptCanBeMissed | sources/dataServer.c:116-122 | a run in which it stays there for good, and the only worker asleep |
| Wire.FieldRoundTrip | sources/Client.c:153-158 | reading a 2- or 4-byte field returns the number written, modulo the width of the field |
| Wire.NetworkOrderRoundTrip | sources/Server.c:291-296 | network byte order of any width is undone by reading it back, for every number that fits |
| Wire.DigitAt | sources/Server.c:291-296 | byte i of a field of any width is the digit that weighs 256^(width - 1 - i) |
| Wire.MostSignificantFirst | sources/Server.c:291-296 | the two bytes of `htons` and the four of `htonl`, most significant first, one by one |
| Wire.FirstWeighsMost | sources/Client.c:153-158 | `ntohs` and `ntohl` as sums in which the first byte weighs most |
| Wire.EncodedFile | sources/Server.c:326-345 | the record of a file on the disk is both sizes in network order, the path and the file's own bytes, all of them below 4 GiB |
| Wire.EncodedTermination | sources/Server.c:355-365 | the 31 bytes of the termination record |
| Wire.RecordAt | sources/Server.c:278-302 | each record occupies its own stretch of the concatenated encodings |
| Wire.EncodeAllAppends | sources/Server.c:312-369 | sending one list of records after another sends their concatenation |
| Codec.OneRoundTrip | sources/Client.c:144-171 | an independent decoder recovers path, content and remaining bytes from an encoded record followed by anything |
| Codec.StreamRoundTrip | sources/Client.c:89-130 | the encodings of any files and the termination message decode to exactly those records and consume every byte |
| Codec.DecodedContentIsWholeIff | sources/Server.c:295-301 | decoding a file on the disk out of a stream yields its path, its first size mod 2^32 bytes and the rest of the stream, and the whole file if and only if it is below 4 GiB |
| PathMapping.SuffixStartsAt | sources/Client.c:190-193 | for any server path in which the directory first occurs at m, and any directory whose last slash is at k, what is kept is everything from m + k on |
| PathMapping.NoSuffixIff | sources/Client.c:190-192 | there is nothing to keep, and the code would go on with a null pointer, if and only if the directory does not occur or has no slash |
| PathMapping.FirstMatchIsInRoot | sources/Client.c:190 | the first occurrence of the client's directory in a server path is decided inside the shared root |
| PathMapping.MappingIsAConstantShift | sources/Client.c:190-193 | the number of characters dropped is the same for the whole transfer, and what is kept starts with `/` |
| PathMapping.MappingKeepsAncestors | sources/Client.c:190-193 | the mapping is injective, and one path is a prefix of another on the client exactly when it is on the server |
| PathMapping.KeepsOnlyLastComponentIff | sources/Client.c:188-193 | what is kept is the last component of the directory and what follows if and only if the directory does not occur earlier in its server path |
| PathMapping.EarlyMatchExample | sources/Client.c:190-193 | for the request `e/u` the client keeps `/users/e/u` and what follows |
| PathMapping.FileIsNoAncestor | sources/Client.c:190-193 | the mapping keeps files apart from directories: the output of a file is no directory on the way to the output of another file that does not lie below it |
| PathMapping.RebuildMakesOnly | sources/Client.c:196-249 | receiving records makes no file and no directory but their outputs and what lies above them |
| PathMapping.RebuildFits | sources/Client.c:226-246 | whatever part of a walk's listing has been received, the next file finds neither a file in its way nor a directory of its name |
| FileTree.WalkStartsWithFirst | sources/Server.c:192-216 | the walk takes the entries of a directory in their order, all files below one before those below the next, and skips only `.` and `..` |
| FileTree.WalkFindsOnlyFiles | sources/Server.c:186-233 | everything the walk lists is a regular file of the tree at that path, reached by names other than `.` and `..` |
| FileTree.WalkFindsEveryFile | sources/Server.c:186-233 | every regular file of the tree reached by names other than `.` and `..`, hidden ones included, is listed with its content |
| FileTree.WalkIsDistinct | sources/Server.c:185-204 | no path is listed twice |
| FileTree.FoundBelow | sources/Server.c:185-204 | every listed path strictly extends the walked directory and a slash |
| FileTree.FoundEndsInName | sources/Server.c:185-204 | no listed path ends in a slash |
| FileTree.FilesAreLeaves | sources/Server.c:174-233 | no listed path lies below another listed path, so no file is wanted as a directory |
| LinkedQueue.Queue.constructor | sources/Queue.c:108-119 | a new queue is well formed and empty |
| LinkedQueue.Queue.Insert | sources/Queue.c:131-142 | a new node is appended and nothing else changes; links, last pointer and size stay consistent |
| LinkedQueue.Queue.Pop | sources/Queue.c:155-168 | the head is removed and returned, or NULL on an empty queue |
| LinkedQueue.Queue.Find | sources/Queue.c:170-180 | the first node with the socket, or NULL exactly when there is none; the search ends |
| LinkedQueue.Queue.Delete | sources/Queue.c:182-206 | exactly the given node is removed, at the head, in the middle or at the tail |
| LinkedQueue.Queue.Destroy | sources/Queue.c:145-153 | the loop ends with an empty queue |
| Transfer.SendData | sources/CommonFuncs.c:27-37 | for every schedule of short writes the loop ends, emits exactly the number of bytes asked for, and each piece is a prefix of the buffer; with full transfers it emits the buffer |
| Transfer.ReceiveData | sources/CommonFuncs.c:40-50 | for every schedule of short reads the loop consumes exactly the bytes asked for, each piece overwriting the start of the buffer; with full transfers it fills the buffer |
| Transfer.SendIsExactIff | sources/CommonFuncs.c:30-35 | the loop emits every buffer unchanged if and only if it needs one call |
| Transfer.ReceiveIsExactIff | sources/CommonFuncs.c:43-48 | the loop stores all data unchanged if and only if it needs one call |
| Transfer.CopyBlock | sources/Server.c:337-341 | a receive followed by a send hands on exactly the next block |
| Transfer.ClearBuffer | sources/CommonFuncs.c:21-23 | exactly the first bytes become NUL |
| Sender.SendFileMetaData | sources/Server.c:278-302 | the header of a record goes out and the size comes back cut to 32 bits |
| Sender.SendContent | sources/Server.c:330-345 | for every block size at least 1 the block loop sends exactly the counted bytes of the file |
| Sender.SendFilesToClient | sources/Server.c:312-369 | the bytes written for a queued record, the termination message included, are its encoding, whatever the block size; for a file on the disk below 4 GiB both sizes, the path and the whole file |
| Receiver.GetFileMetaData | sources/Client.c:144-171 | from a framed record the client reads back path and size, consumes exactly the header, and leaves the path as a C string in the buffer |
| Receiver.CopyContent | sources/Client.c:102-118 | exactly the announced bytes end in the file; the block size that is left is the remainder of the file size, or the old one if there is no remainder |
| Resolver.Resolve | sources/Client.c:196-249 | the scan ends with the output directory followed by the suffix, visits exactly the prefixes ending in `/` in increasing length, and makes those that no regular file stands in the way of, always inside an existing directory; it ends with a new empty file if and only if no file is in the way, no directory has the file's name and the suffix does not end in a slash |
| Resolver.VisitDirectory | sources/Client.c:226-236 | a directory that is missing is made, unless a file is in the way |
| Resolver.VisitFile | sources/Client.c:238-247 | an old file is replaced by an empty one; it fails, changing no file, if and only if a file is in the way or a directory has the name |
| Receiver.ReceiveFile | sources/Client.c:97-123 | one round for a file that fits adds the file, its content and its ancestors to the tree, and leaves the block size that the file has shrunk it to |
| Receiver.ReceiveRecord | sources/Client.c:90-124 | one record is consumed and delivered, and the buffer keeps its path |
| Receiver.CopyRound | sources/Client.c:89-130 | one round consumes one encoding, sends one `ACK`, and asks for another round unless the record was the termination message |
| Receiver.CopyFiles | sources/Client.c:70-135 | from the encodings of any files none of which lies below another, and the termination message, the client rebuilds the tree, consumes exactly those bytes and acknowledges every record, whatever block size it starts from |
| Receiver.BufferTest | sources/Client.c:130 | the test on the buffer agrees with the test on the path |
| Extractor.InsertFile | sources/Server.c:249-255 | the node is made, with the termination message for NULL, and appended |
| Extractor.ReadDirectory | sources/Server.c:192-216 | the entries' files are appended in order, the dot entries skipped |
| Extractor.ExtractFiles | sources/Server.c:160-237 | exactly the walk's files are appended, each once |
| Extractor.ExtractAll | sources/Server.c:55-60 | all files and then the termination message |
| ServerThreads.Server.constructor | sources/dataServer.c:98-134 | the new server is an initial state of the machine, and connection c has the c-th request, its own socket and its own directory |
| ServerThreads.Server.WorkerTests | sources/Server.c:417 | on the heap queue, the wait condition's step of the machine |
| ServerThreads.Server.WorkerPops | sources/Server.c:424-426 | popping the heap queue is the machine's pop, and the invariant is kept |
| ServerThreads.Server.WorkerFinds | sources/Server.c:428 | the search in the heap registry is the machine's lookup |
| ServerThreads.Server.CommRegisters | sources/Server.c:28-32 | making and inserting the node is the machine's registration |
| ServerThreads.Server.CommTests | sources/Server.c:256-257 | the capacity test on the heap queue's size is the machine's |
| ServerThreads.Server.CommInserts | sources/Server.c:249-262 | inserting a new node is the machine's insertion of the next record |
| ServerThreads.Server.CommDeregisters | sources/Server.c:82-84 | deleting the thread's own node is the machine's removal, and leaves every other connection's node registered |
| ServerThreads.Server.StepElsewhere | sources/Server.c:432-438 | of the steps that touch no queue, which are taken over from the machine, only this: the two heap queues stay well formed and every registered connection keeps its node |
| ServerThreads.Server.Take | sources/Server.c:407-441 | for any step of the machine, the queue operation it stands for, if any, ends in the machine's next state on the heap, and the other steps do the queues no harm |
| ServerThreads.Server.Follow | sources/Server.c:407-441 | so the heap queues follow every run of the machine from its first state to its last, and every connection keeps the request it was made with |
| ServerThreads.RegistryTells | sources/Server.c:29-32 | a connection is registered if and only if its node is in the registry |
| ServerThreads.ExtractedAreRecords | sources/Server.c:55-60 | what the walk and the termination message put into the queue are the machine's records of that request, in order |

## Left out

- Short transfers inside the whole-system runs: reads and writes of a field are full there; what short ones do is proved for the loops alone (`Transfer`).
- Partial `read`s of a field out of a socket smaller than the field, and a client's message written in parts.
- A signal delivered to another thread than main's, and a second ^C that finds main outside `accept`, which changes nothing.
- Sender.SendFilesToClient: says nothing about the source for a listed file that is not on the disk, because `stat` then fails and the server exits.
- End of file, a peer that closes, and failing system calls, except for files and directories in each other's way.
- The handshake before the directory is confirmed, and the wrong-directory reply, which carries no length prefix (`sources/Server.c:122`) although the client reads one (`sources/Client.c:24`). The machine starts each connection from a confirmed directory.
- An empty directory argument and the removal of a trailing slash (`sources/Client.c:11-14`).
- Empty directories and special files: the server never sends them (`sources/Server.c:174-233`), so a copy has regular files and their ancestors only, less than the documentation's exact same structure.
- What ^C comes to while a worker is held up before a full socket: the results on leaving workers are for requests that fit the sockets; such a worker, and whoever waits for its mutexes, does not leave.
- That a registry node is unlocked when it is deleted, because it need not be: a worker may have written the last byte without having reached `sources/Server.c:438` (`NodeInUse.DeletedWhileLocked`).
- Data races on the registry: `Queue_Find` at `sources/Server.c:428` does not take `mutex_socket_queue`; lookup, insertion and deletion are single steps here.
- Memory: allocation, `free`, and the union test in `QueueNode_Delete` (`sources/Queue.c:49-59`). A deleted node simply leaves the queue.
- The wrap-around of the queue's 32-bit `size`.
- `ServerThreads` puts the two queues on the heap; mutexes, sockets, program counters and clients are values there too, and a step that touches no queue is taken over from the machine.
- Extractor.InsertFile: without the locking, the wait for room and the signal of `sources/Server.c:248-265`, because these are about other threads; they are steps of the machine, and the insertion between them is `ServerThreads.Server.CommInserts`.
- `mutex_dir` and `readdir`: a directory is a finite sequence of entries.
- Communication threads still at work when the process exits, and the destruction of both queues after the workers are joined, apart from the loop of `Queue_Destroy` itself.
- Socket set-up, name resolution, argument parsing, printing, the process number in the output directory's name, and the rewriting of `server_path` for display (`sources/Client.c:250-251`).
- File system permissions and time stamps. Paths are compared as strings.
