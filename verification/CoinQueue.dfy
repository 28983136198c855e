/** The pool's linked work queue: heap nodes, a head, a tail and a size. */
module CoinQueue {
  import opened Prelude

  datatype Status = Success | InvalidInput | AllocationFailure | EmptyQueue

  class Node<T> {
    var task: T
    var next: Node?<T>

    constructor (task: T)
      ensures this.task == task && next == null
    {
      this.task := task;
      next := null;
    }
  }

  class Queue<T> {
    var head: Node?<T>
    var tail: Node?<T>
    var size: nat
    ghost var spine: seq<Node<T>>   // the nodes from head to tail

    /** The spine is what following `next` from the head visits: no node twice, the tail
        last, and nothing after the tail. */
    ghost predicate Valid()
      reads this, spine
    {
      && size == |spine|
      && (forall i, j :: 0 <= i < j < |spine| ==> spine[i] != spine[j])
      && (forall i :: 0 <= i < |spine| - 1 ==> spine[i].next == spine[i + 1])
      && (spine != [] ==> spine[|spine| - 1].next == null)
      && head == (if spine == [] then null else spine[0])
      && tail == (if spine == [] then null else spine[|spine| - 1])
    }

    ghost function Contents(): (s: seq<T>)
      requires Valid()
      reads this, spine
      ensures |s| == |spine|
      ensures forall i :: 0 <= i < |s| ==> s[i] == spine[i].task
    {
      seq(|spine|, i requires 0 <= i < |spine| reads this, spine => spine[i].task)
    }

    constructor ()
      ensures Valid() && Contents() == [] && spine == []
    {
      head, tail, size, spine := null, null, 0, [];
    }

    /** Append a task in a new node. */
    method Push(task: Option<T>, allocOk: bool) returns (status: Status)
      requires Valid()
      modifies this, spine
      ensures Valid()
      ensures status == if task.None? then InvalidInput else if !allocOk then AllocationFailure else Success
      ensures status == Success ==> Contents() == old(Contents()) + [task.value]
      ensures status == Success ==> |spine| == |old(spine)| + 1 && spine[..|spine| - 1] == old(spine) && fresh(tail)
      ensures status != Success ==> Contents() == old(Contents()) && spine == old(spine)
    {
      if task.None? {
        return InvalidInput;
      }
      if !allocOk {
        return AllocationFailure;
      }
      var node := new Node(task.value);
      if head == null {
        head, tail := node, node;
      } else if head == tail {
        head.next := node;
        tail := node;
      } else {
        tail.next := node;
        tail := node;
      }
      size := size + 1;
      spine := spine + [node];
      status := Success;
    }

    /** Unlink the head node and hand out its task. */
    method Pop() returns (status: Status, task: Option<T>)
      requires Valid()
      modifies this
      ensures Valid()
      ensures status == if old(spine) == [] then EmptyQueue else Success
      ensures status == Success ==>
                task == Some(old(Contents())[0]) && Contents() == old(Contents())[1..] && spine == old(spine)[1..]
      ensures status == EmptyQueue ==> task == None && Contents() == [] && spine == []
    {
      if head == null {
        return EmptyQueue, None;
      }
      var node := head;
      if head == tail {
        assert |spine| == 1 by {
          assert spine[0] == spine[|spine| - 1];
        }
        head, tail := null, null;
      } else {
        head := node.next;
      }
      task := Some(node.task);
      size := size - 1;
      spine := spine[1..];
      status := Success;
    }

    /** Walk from the head, freeing each node after its successor is saved: every node of the
        queue goes exactly once, and with it its task, from oldest to newest. */
    method Destroy() returns (discarded: seq<T>, ghost freed: seq<Node<T>>)
      requires Valid()
      ensures discarded == Contents()
      ensures freed == spine
      ensures forall i, j :: 0 <= i < j < |freed| ==> freed[i] != freed[j]
    {
      discarded, freed := [], [];
      var cur := head;
      while cur != null
        invariant |freed| <= |spine| && freed == spine[..|freed|]
        invariant discarded == Contents()[..|freed|]
        invariant cur == if |freed| < |spine| then spine[|freed|] else null
        decreases |spine| - |freed|
      {
        var tmp := cur.next;
        discarded, freed := discarded + [cur.task], freed + [cur];
        cur := tmp;
      }
    }
  }
}
