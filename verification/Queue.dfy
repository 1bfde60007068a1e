/** The intrusive queue of src/utils/queue.c, at heap level: a singly linked chain
    through the `next` fields of its items, where a sentinel value of `next` marks an
    item that is in no queue. Every method refines an operation on the sequence `items`. */
module IntrusiveQueue {

  /** The three kinds of value `next` can hold: the sentinel, NULL, or a pointer. */
  datatype Link = NotInQueue | End | To(item: Item)

  class Item {
    var next: Link

    constructor ()
      ensures next == NotInQueue
    {
      next := NotInQueue;
    }

    /** fsock_queue_item_isinqueue */
    predicate IsInQueue()
      reads this
    {
      next != NotInQueue
    }
  }

  /** Following a link that is not the sentinel, as C does when it loads the pointer. */
  function Follow(l: Link): (p: Item?)
    requires l != NotInQueue
    ensures l == End <==> p == null
    ensures l.To? ==> p == l.item
  {
    if l.To? then l.item else null
  }

  ghost predicate Distinct<T>(s: seq<T>) {
    forall i, j :: 0 <= i < j < |s| ==> s[i] != s[j]
  }

  /** Item i of a chain points to the next one, and the last item to nothing. */
  ghost predicate Linked(s: seq<Item>, i: nat)
    requires i < |s|
    reads s[i]
  {
    s[i].next == if i + 1 < |s| then To(s[i + 1]) else End
  }

  ghost predicate Chain(s: seq<Item>)
    reads s
  {
    forall i :: 0 <= i < |s| ==> Linked(s, i)
  }

  /** What a chain of items stands for, each item being part of a larger structure. */
  ghost function Names<T>(items: seq<Item>, name: map<Item, T>): (q: seq<T>)
    requires forall x :: x in items ==> x in name
    ensures |q| == |items| && forall i :: 0 <= i < |q| ==> q[i] == name[items[i]]
  {
    seq(|items|, i requires 0 <= i < |items| => name[items[i]])
  }

  class Queue {
    var head: Item?
    var tail: Item?
    ghost var items: seq<Item>

    /** The chain is acyclic, ends in NULL, and holds exactly `items`; `tail` is its last
        node, and is null exactly when `head` is. No item of a queue carries the sentinel. */
    ghost predicate Valid()
      reads this, items
    {
      && Distinct(items)
      && Chain(items)
      && head == (if items == [] then null else items[0])
      && tail == (if items == [] then null else items[|items| - 1])
    }

    constructor ()
      ensures Valid() && items == []
    {
      head, tail, items := null, null, [];
    }

    method IsEmpty() returns (empty: bool)
      requires Valid()
      ensures empty <==> items == []
    {
      empty := head == null;
    }

    method Push(item: Item)
      requires Valid()
      requires !item.IsInQueue()  // the assertion at line 47
      modifies this, items, item
      ensures Valid() && items == old(items) + [item]
      ensures item.IsInQueue()
    {
      forall i | 0 <= i < |items|
        ensures items[i] != item
      {
        assert Linked(items, i);
      }
      item.next := End;
      if head == null {
        head := item;
      }
      if tail != null {
        tail.next := To(item);
      }
      tail := item;
      ghost var was := items;
      items := items + [item];
      forall i | 0 <= i < |items|
        ensures Linked(items, i)
      {
        assert i < |was| ==> old(Linked(was, i));
      }
    }

    method Pop() returns (result: Item?)
      requires Valid()
      modifies this, items
      ensures Valid()
      ensures old(items) == [] ==> result == null && items == []
      ensures old(items) != [] ==>
                result == old(items[0]) && items == old(items)[1..] && !result.IsInQueue()
    {
      if head == null {
        return null;
      }
      result := head;
      assert Linked(items, 0);
      head := Follow(result.next);
      if head == null {
        tail := null;
      }
      result.next := NotInQueue;
      ghost var was := items;
      items := items[1..];
      forall i | 0 <= i < |items|
        ensures Linked(items, i)
      {
        assert old(Linked(was, i + 1));
      }
    }

    /** Removes exactly the given item and keeps the order of the rest. An item that waits in
        another queue, or in none, is left alone: this is what makes cancelling a task that a
        worker has already taken into its private batch a no-op. */
    method Remove(item: Item)
      requires Valid()
      modifies this, items
      ensures Valid()
      ensures item !in old(items) ==>
                items == old(items) && (forall x :: x in items ==> x.next == old(x.next))
      ensures item in old(items) ==>
                && !item.IsInQueue()
                && exists k :: 0 <= k < |old(items)| && old(items)[k] == item
                            && items == old(items)[..k] + old(items)[k + 1..]
    {
      if item.next == NotInQueue {
        forall i | 0 <= i < |items|
          ensures items[i] != item
        {
          assert Linked(items, i);
        }
        return;
      }
      var prev: Item? := null;
      var it := head;
      ghost var k := 0;
      while it != null && it != item
        invariant 0 <= k <= |items|
        invariant it == (if k < |items| then items[k] else null)
        invariant prev == (if k == 0 then null else items[k - 1])
        invariant item !in items[..k]
        decreases |items| - k
      {
        assert Linked(items, k);
        assert items[..k + 1] == items[..k] + [items[k]];
        prev, it, k := it, Follow(it.next), k + 1;
      }
      if it == null {
        assert items[..k] == items;
      } else {
        Unlink(prev, item, k);
      }
    }

    /** The body of the walk at the item it was looking for (lines 67-75). */
    method Unlink(prev: Item?, item: Item, ghost k: nat)
      requires Valid()
      requires k < |items| && items[k] == item
      requires prev == (if k == 0 then null else items[k - 1])
      modifies this, items
      ensures Valid()
      ensures items == old(items)[..k] + old(items)[k + 1..] && !item.IsInQueue()
    {
      assert Linked(items, k);
      if head == item {
        head := Follow(item.next);
      }
      if tail == item {
        tail := prev;
      }
      if prev != null {
        prev.next := item.next;
      }
      item.next := NotInQueue;
      ghost var was := items;
      items := items[..k] + items[k + 1..];
      forall i | 0 <= i < |items|
        ensures Linked(items, i)
      {
        assert old(Linked(was, if i < k then i else i + 1));
      }
    }

    /** The constant-time hand-over in the read handler (src/core/sock.c:366-377): links a
        private batch onto this queue. The result is the one that pushing the batch item by
        item would give, and the middle branch cannot be taken. */
    method Splice(batch: Queue)
      requires Valid() && batch.Valid() && this != batch
      requires batch.items != []
      requires forall i, j :: 0 <= i < |items| && 0 <= j < |batch.items| ==> items[i] != batch.items[j]
      modifies this, items
      ensures Valid() && items == old(items) + batch.items
      ensures forall x :: x in batch.items ==> x.next == old(x.next)
    {
      if tail != null {
        tail.next := To(batch.head);
        tail := batch.tail;
      } else if head != null {
        assert false;
      } else {
        head := batch.head;
        tail := batch.tail;
      }
      ghost var was := items;
      items := items + batch.items;
      forall i | 0 <= i < |items|
        ensures Linked(items, i)
      {
        if i < |was| {
          assert old(Linked(was, i));
        } else {
          assert old(Linked(batch.items, i - |was|));
        }
      }
    }

    /** A worker takes the whole shared queue as its private batch (src/utils/thread.c:88-91).
        Every item stays marked as queued, although no walk of the shared queue finds it. */
    method TakeAll() returns (batch: Queue)
      requires Valid()
      modifies this
      ensures Valid() && items == []
      ensures fresh(batch) && batch.Valid() && batch.items == old(items)
    {
      batch := new Queue();
      batch.head, batch.tail, batch.items := head, tail, items;
      head, tail, items := null, null, [];
    }
  }
}
