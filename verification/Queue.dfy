/** The intrusive first-in first-out queue of threads (kernel/queue.h). */
module Queue {
  /** A queued object carries its own link. */
  class Node {
    var next: Node?

    constructor ()
      ensures next == null
    {
      next := null;
    }
  }

  /** The links from first lead through exactly the nodes of contents and end at last. */
  class Queue {
    var first: Node?
    var last: Node?
    ghost var contents: seq<Node>

    ghost predicate Valid()
      reads this, contents
    {
      && (forall i, j :: 0 <= i < j < |contents| ==> contents[i] != contents[j])
      && (if contents == [] then first == null && last == null
          else first == contents[0] && last == contents[|contents| - 1])
      && (forall i :: 0 <= i < |contents| ==> contents[i].next == Following(i))
    }

    ghost function Following(i: nat): Node?
      requires i < |contents|
      reads this
    {
      if i + 1 < |contents| then contents[i + 1] else null
    }

    constructor ()
      ensures Valid() && contents == []
    {
      first := null;
      last := null;
      contents := [];
    }

    /** A node may be in one queue at a time: its link is overwritten. */
    method Add(t: Node)
      requires Valid() && t !in contents
      modifies this, t, if contents == [] then {} else {contents[|contents| - 1]}
      ensures Valid() && contents == old(contents) + [t]
    {
      t.next := null;
      if first == null {
        first := t;
      } else {
        last.next := t;
      }
      last := t;
      contents := contents + [t];
    }

    /** Takes the node that was added first; its own link is left as it was. */
    method Remove() returns (it: Node?)
      requires Valid()
      modifies this
      ensures Valid()
      ensures it == null <==> old(contents) == []
      ensures it == null ==> contents == []
      ensures it != null ==> old(contents) == [it] + contents
    {
      if first == null {
        return null;
      }
      it := first;
      first := it.next;
      if first == null {
        last := null;
      }
      contents := contents[1..];
    }

    /** Hands out the whole chain by its first node. */
    method RemoveAll() returns (it: Node?)
      requires Valid()
      modifies this
      ensures Valid() && contents == []
      ensures it == if old(contents) == [] then null else old(contents)[0]
      ensures forall i :: 0 <= i < |old(contents)| ==>
        old(contents)[i].next == if i + 1 < |old(contents)| then old(contents)[i + 1] else null
    {
      it := first;
      first := null;
      last := null;
      contents := [];
    }
  }
}
