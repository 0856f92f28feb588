/** The linked list of the queue, node by node, with the fields that the lock protects. Every
    method is one critical section and is proved against the section of the same name in
    module Monitor, whose runs are where the queue's promises are proved. */
module PQueues {
  import M = Monitor

  class Node<T> {
    var data: T
    var next: Node?<T>

    constructor (data: T)
      ensures this.data == data && next == null
    {
      this.data := data;
      next := null;
    }
  }

  /** What the tail pointer points to: the head field, or the next field of a node. */
  datatype Slot<T> = HeadSlot | NextOf(node: Node<T>)

  class PQueue<T> {
    var head: Node?<T>
    var tail: Slot<T>
    var curSize: int
    var maxSize: int
    var overFlag: int
    var fullWait: int
    var freeWait: int
    ghost var nodes: seq<Node<T>>

    /** The nodes reached from the head are the ghost sequence, without repetition; the tail is
        the slot in which the list ends; the size is counted right and within the capacity. */
    ghost predicate Valid()
      reads this, nodes
    {
      && Linked(nodes)
      && head == At(nodes, 0)
      && tail == (if nodes == [] then HeadSlot else NextOf(nodes[|nodes| - 1]))
      && curSize == |nodes| <= maxSize && 1 <= maxSize
    }

    /** The queue as the protocol sees it: the list is the sequence of its nodes. */
    ghost function View(): M.Queue<Node<T>>
      reads this
    {
      M.Queue(nodes, maxSize, overFlag, freeWait, fullWait)
    }

    constructor ()
      ensures Valid() && View() == M.EmptyQueue()
      ensures nodes == [] && maxSize == 100 && overFlag == 0 && fullWait == 0 && freeWait == 0
    {
      head := null;
      tail := HeadSlot;
      curSize := 0;
      maxSize := M.DEFAULT_SIZE;
      overFlag := 0;
      freeWait := 0;
      fullWait := 0;
      nodes := [];
    }

    /** The part of `put` before the lock: a null argument returns at once. */
    static method PreparePut(val: Node?<T>) returns (enters: bool)
      modifies val
      ensures enters == (val != null)
      ensures enters ==> val.next == null && val.data == old(val.data)
    {
      if val == null {
        return false;
      }
      val.next := null;
      return true;
    }

    method Put(val: Node<T>) returns (waits: bool, signalsFree: bool)
      requires Valid() && val !in nodes && val.next == null
      modifies this, nodes`next
      ensures Valid()
      ensures M.PutResult(View(), waits, signalsFree) == M.PutSection(old(View()), val)
    {
      if curSize >= maxSize {
        fullWait := fullWait + 1;
        return true, false;
      }
      Append(val);
      waits := false;
      signalsFree := WakesConsumer();
    }

    /** The waiter count behind `put`'s signal. */
    method WakesConsumer() returns (signals: bool)
      requires Valid()
      modifies this`freeWait
      ensures Valid() && signals == (old(freeWait) > 0)
      ensures View() == old(View()).(freeWait := if signals then old(freeWait) - 1 else old(freeWait))
    {
      signals := freeWait > 0;
      if signals {
        freeWait := freeWait - 1;
      }
    }

    /** The write through the tail pointer, which then moves on to the new node's slot. */
    method Append(val: Node<T>)
      requires Valid() && curSize < maxSize && val !in nodes && val.next == null
      modifies this`head, this`tail, this`curSize, this`nodes, nodes`next
      ensures Valid() && nodes == old(nodes) + [val]
      ensures View() == old(View()).(items := old(nodes) + [val])
    {
      WriteTail(val);
      tail := NextOf(val);
      curSize := curSize + 1;
      nodes := nodes + [val];
    }

    /** The slot in which the list ends now holds the node, and no other slot changes. */
    method WriteTail(val: Node<T>)
      requires Valid() && val !in nodes
      modifies this`head, nodes`next
      ensures head == if nodes == [] then val else old(head)
      ensures forall i | 0 <= i < |nodes| ::
                nodes[i].next == if i == |nodes| - 1 then val else old(nodes[i].next)
    {
      match tail {
        case HeadSlot => head := val;
        case NextOf(last) => last.next := val;
      }
    }

    /** The node comes back as `get` returns it; it keeps its data. */
    method Get() returns (waits: bool, node: Node?<T>, signalsFull: bool)
      requires Valid()
      modifies this
      ensures Valid()
      ensures M.GetResult(View(), Outcome(waits, node), signalsFull) == M.GetSection(old(View()))
      ensures waits ==> node == null
    {
      waits, node, signalsFull := false, null, false;
      if curSize == 0 {
        if overFlag != 0 {
          return;
        }
        freeWait := freeWait + 1;
        waits := true;
        return;
      }
      if overFlag != 0 {
        return;
      }
      node := head;
      head := node.next;
      nodes := nodes[1..];
      if head == null {
        tail := HeadSlot;
      }
      curSize := curSize - 1;
      if fullWait > 0 {
        signalsFull := true;
        fullWait := fullWait - 1;
      }
    }

    static ghost function Outcome(waits: bool, node: Node?<T>): M.GetOutcome<Node<T>> {
      if waits then M.GetWaits else if node == null then M.GetNull else M.Got(node as Node<T>)
    }

    method SetSize(size: int)
      requires Valid()
      modifies this
      ensures Valid() && View() == M.SizeSection(old(View()), size)
      ensures maxSize == (if size > old(|nodes|) then size else old(maxSize)) && nodes == old(nodes)
    {
      if size > curSize {
        maxSize := size;
      }
    }

    method SetFlag(flag: int)
      requires Valid()
      modifies this
      ensures Valid() && View() == old(View()).(overFlag := flag)
    {
      overFlag := flag;
    }

    /** Deletes every node of the list once, from head to tail. The nodes are read before they
        are deleted, and never after. */
    method ResetQueue() returns (deleted: seq<Node<T>>)
      requires Valid()
      modifies this
      ensures Valid() && View() == M.EmptyQueue()
      ensures nodes == [] && maxSize == 100 && overFlag == 0 && fullWait == 0 && freeWait == 0
      ensures deleted == old(nodes)
    {
      deleted := DeleteAll();
      head := null;
      tail := HeadSlot;
      curSize := 0;
      maxSize := M.DEFAULT_SIZE;
      overFlag := 0;
      freeWait := 0;
      fullWait := 0;
      nodes := [];
    }

    /** The deleting loop of `resetqueue` and of the destructor. */
    method DeleteAll() returns (deleted: seq<Node<T>>)
      requires Valid()
      ensures deleted == nodes
    {
      deleted := [];
      var p := head;
      while p != null
        invariant |deleted| <= |nodes| && deleted == nodes[..|deleted|]
        invariant p == At(nodes, |deleted|)
        decreases |nodes| - |deleted|
      {
        var q := p.next;
        deleted := deleted + [p];
        p := q;
      }
    }
  }

  ghost function At<T>(ns: seq<Node<T>>, i: nat): Node?<T> {
    if i < |ns| then ns[i] else null
  }

  /** Each node points to the next one, the last to nothing, and no node comes twice. */
  ghost predicate Linked<T>(ns: seq<Node<T>>)
    reads ns
  {
    && (forall i | 0 <= i < |ns| :: ns[i].next == At(ns, i + 1))
    && (forall i, j | 0 <= i < j < |ns| :: ns[i] != ns[j])
  }
}
