/** sources/Queue.c: the singly linked queue with a tail pointer and a size, used both as
    `Files_Queue` and as `Mutex_Socket_Queue`. */
module LinkedQueue {

  /** `union Data_Node`: a file name, or the mutex made by the communication thread `owner`. */
  datatype Data = FileName(name: string) | SocketMutex(owner: nat)

  class QueueNode {
    const socket: int
    const data: Data
    var next: QueueNode?

    constructor (socket: int, data: Data)
      ensures this.socket == socket && this.data == data && next == null
    {
      this.socket, this.data, next := socket, data, null;
    }
  }

  /** What a node says, without its link. */
  datatype Item = Item(socket: int, data: Data)

  function Items(nodes: seq<QueueNode>): (items: seq<Item>)
    ensures |items| == |nodes|
    ensures forall i | 0 <= i < |nodes| :: items[i] == Item(nodes[i].socket, nodes[i].data)
  {
    seq(|nodes|, i requires 0 <= i < |nodes| => Item(nodes[i].socket, nodes[i].data))
  }

  function IndexOf(nodes: seq<QueueNode>, node: QueueNode): (i: nat)
    requires node in nodes
    ensures i < |nodes| && nodes[i] == node
  {
    if nodes[0] == node then 0 else IndexOf(nodes[1..], node) + 1
  }

  function Without(nodes: seq<QueueNode>, node: QueueNode): seq<QueueNode>
    requires node in nodes
  {
    var i := IndexOf(nodes, node);
    nodes[..i] + nodes[i + 1..]
  }

  class Queue {
    var first: QueueNode?
    var last: QueueNode?
    var size: nat
    ghost var nodes: seq<QueueNode>

    /** The nodes are distinct, chained in order from `first` to `last`, and the chain ends there. */
    ghost predicate Valid()
      reads this, nodes
    {
      && size == |nodes|
      && (forall i, j | 0 <= i < j < |nodes| :: nodes[i] != nodes[j])
      && (nodes == [] ==> first == null && last == null)
      && (nodes != [] ==> first == nodes[0] && last == nodes[|nodes| - 1] && nodes[|nodes| - 1].next == null)
      && (forall i | 0 <= i < |nodes| - 1 :: nodes[i].next == nodes[i + 1])
    }

    /** The objects a change of links may touch. */
    ghost function Footprint(): set<object>
      reads this
    {
      set n | n in nodes
    }

    ghost function Contents(): seq<Item>
      reads this
    {
      Items(nodes)
    }

    constructor ()
      ensures Valid() && nodes == []
    {
      first, last, size, nodes := null, null, 0, [];
    }

    predicate IsEmpty()
      reads this
    {
      size == 0
    }

    method Insert(node: QueueNode)
      requires Valid() && node !in nodes && node.next == null
      modifies this, Footprint()
      ensures Valid() && nodes == old(nodes) + [node] && Footprint() == old(Footprint()) + {node}
      ensures Contents() == old(Contents()) + [Item(node.socket, node.data)]
    {
      if IsEmpty() {
        first := node;
      } else {
        last.next := node;
      }
      last := node;
      size := size + 1;
      nodes := nodes + [node];
    }

    /** Removes the head; the popped node keeps its old link, which is no longer part of the queue. */
    method Pop() returns (node: QueueNode?)
      requires Valid()
      modifies this
      ensures Valid()
      ensures old(nodes) == [] ==> node == null && nodes == []
      ensures old(nodes) != [] ==> node == old(nodes)[0] && nodes == old(nodes)[1..]
      ensures old(nodes) != [] ==> Contents() == old(Contents())[1..]
    {
      if IsEmpty() {
        return null;
      }
      node := first;
      first := first.next;
      size := size - 1;
      nodes := nodes[1..];
      if size <= 1 {
        last := first;
      }
    }

    /** The first node with this socket, if there is one. */
    method Find(socket: int) returns (node: QueueNode?)
      requires Valid()
      ensures node == null <==> forall i | 0 <= i < |nodes| :: nodes[i].socket != socket
      ensures node != null ==> exists i :: 0 <= i < |nodes| && nodes[i] == node && node.socket == socket
                                           && forall j | 0 <= j < i :: nodes[j].socket != socket
    {
      node := first;
      ghost var at := 0;
      while node != null
        invariant at <= |nodes| && node == (if at < |nodes| then nodes[at] else null)
        invariant forall j | 0 <= j < at :: nodes[j].socket != socket
        decreases |nodes| - at
      {
        if node.socket == socket {
          break;
        }
        node := node.next;
        at := at + 1;
      }
    }

    /** Disconnects a member of the queue, wherever it is. */
    method Delete(node: QueueNode)
      requires Valid() && node in nodes
      modifies this, Footprint()
      ensures Valid() && nodes == Without(old(nodes), node)
    {
      ghost var was := nodes;
      ghost var at := IndexOf(was, node);
      if node == first {
        assert at == 0;
        var _ := Pop();
      } else {
        var prev := first;
        var candidate := first.next;
        ghost var i := 1;
        while candidate != node
          invariant 1 <= i <= at && prev == was[i - 1] && candidate == was[i]
          decreases at - i
        {
          prev := candidate;
          candidate := candidate.next;
          i := i + 1;
        }
        assert i == at;
        if candidate == last {
          last := prev;
          last.next := null;
        } else {
          prev.next := candidate.next;
        }
        size := size - 1;
        nodes := was[..at] + was[at + 1..];
      }
    }

    /** Pops until nothing is left. */
    method Destroy()
      requires Valid()
      modifies this
      ensures Valid() && nodes == []
    {
      while first != null && size != 0
        invariant Valid()
        decreases |nodes|
      {
        var _ := Pop();
      }
    }
  }
}
