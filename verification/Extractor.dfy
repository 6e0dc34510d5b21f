/** `Server_Extract_Files_From_Directory`: the recursive walk that works by inserting into the queue.
    Waiting for room in the queue is the business of the protocol; here the queue takes every record. */
module Extractor {
  import opened Wire
  import opened FileTree
  import opened LinkedQueue

  /** The queue entries of the files found. */
  function Queued(socket: int, found: seq<Found>): (items: seq<Item>)
    ensures |items| == |found|
    ensures forall i | 0 <= i < |found| :: items[i] == Item(socket, FileName(found[i].path))
  {
    seq(|found|, i requires 0 <= i < |found| => Item(socket, FileName(found[i].path)))
  }

  /** What one entry of a directory contributes. */
  function EntryFiles(entry: Entry, prefix: string): seq<Found> {
    if IsDots(entry.name) then [] else Walk(entry.node, prefix + entry.name)
  }

  lemma QueuedStep(socket: int, entries: seq<Entry>, prefix: string, i: nat)
    requires i < |entries|
    ensures Queued(socket, WalkEntries(entries[..i + 1], prefix))
         == Queued(socket, WalkEntries(entries[..i], prefix)) + Queued(socket, EntryFiles(entries[i], prefix))
  {
    assert entries[..i + 1][..i] == entries[..i];
  }

  lemma QueuedNothing(socket: int, entries: seq<Entry>, prefix: string)
    ensures Queued(socket, WalkEntries(entries[..0], prefix)) == [] && entries[..|entries|] == entries
  {
  }

  /** `Server_Insert_Files_To_Queue` without the locking; `None` stands for the NULL path. */
  method InsertFile(queue: Queue, socket: int, path: Option<string>)
    requires queue.Valid()
    modifies queue, queue.Footprint()
    ensures queue.Valid() && fresh(queue.Footprint() - old(queue.Footprint()))
    ensures queue.Contents()
         == old(queue.Contents()) + [Item(socket, FileName(if path.Some? then path.value else TERMINATION_MSG))]
  {
    var node := new QueueNode(socket, FileName(if path.Some? then path.value else TERMINATION_MSG));
    queue.Insert(node);
  }

  /** Inserts the regular files of the tree in walk order, and nothing else. */
  method ExtractFiles(queue: Queue, socket: int, node: Node, path: string)
    requires queue.Valid()
    modifies queue, queue.Footprint()
    ensures queue.Valid() && fresh(queue.Footprint() - old(queue.Footprint()))
    ensures queue.Contents() == old(queue.Contents()) + Queued(socket, Walk(node, path))
    decreases node, 0
  {
    hide WalkEntries, Queued, Items;
    QueuedFew(socket, path);
    if node.Directory? {
      ReadDirectory(queue, socket, node.entries, path + "/");
    } else if node.File? {
      InsertFile(queue, socket, Some(path));
    }
  }

  /** The `readdir` loop. */
  method ReadDirectory(queue: Queue, socket: int, entries: seq<Entry>, currPath: string)
    requires queue.Valid()
    modifies queue, queue.Footprint()
    ensures queue.Valid() && fresh(queue.Footprint() - old(queue.Footprint()))
    ensures queue.Contents() == old(queue.Contents()) + Queued(socket, WalkEntries(entries, currPath))
    decreases entries, 1
  {
    hide Walk, WalkEntries, Queued, Items, Queue.Valid;
    QueuedNothing(socket, entries, currPath);
    var i := 0;
    while i < |entries|
      invariant 0 <= i <= |entries|
      invariant queue.Valid() && fresh(queue.Footprint() - old(queue.Footprint()))
      invariant queue.Contents() == old(queue.Contents()) + Queued(socket, WalkEntries(entries[..i], currPath))
    {
      QueuedStep(socket, entries, currPath, i);
      var entry := entries[i];
      if !IsDots(entry.name) {
        ExtractFiles(queue, socket, entry.node, currPath + entry.name);
      } else {
        QueuedFew(socket, currPath);
      }
      i := i + 1;
    }
  }

  lemma QueuedFew(socket: int, path: string)
    ensures Queued(socket, []) == []
    ensures forall content :: Queued(socket, [Found(path, content)]) == [Item(socket, FileName(path))]
  {
  }

  /** Steps 5 and 6 of `Server`: all files, then the termination message. */
  method ExtractAll(queue: Queue, socket: int, root: Node, path: string)
    requires queue.Valid()
    modifies queue, queue.Footprint()
    ensures queue.Valid() && fresh(queue.Footprint() - old(queue.Footprint()))
    ensures queue.Contents()
         == old(queue.Contents()) + Queued(socket, Walk(root, path)) + [Item(socket, FileName(TERMINATION_MSG))]
  {
    ExtractFiles(queue, socket, root, path);
    InsertFile(queue, socket, None);
  }
}
